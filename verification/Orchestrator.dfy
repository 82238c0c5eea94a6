/**
 The evaluation orchestrator: the nested scenes x epochs loop of `_run_eval`.

 Every hook the loop calls is an input of the model: a `TrialScript` says what each hook of one
 trial would do if it were called, so a statement about all scripts is a statement about every
 behaviour of the embodiment, the policy, the grading hook, the scorers and the sinks. A run returns the
 trace of calls it made, the samples it recorded, and how it ended.
 */
module Orchestrator {
  import opened Basics
  import opened Scoring

  // ---------------------------------------------------------------- what can happen

  /** What a hook raised; `id` tells one exception object from another. */
  datatype Exc =
    | Plain(id: nat)          // an ordinary exception
    | PolicyFailure(id: nat)  // PolicyError
    | Halt(id: nat)           // SafetyAbort or EmbodimentFault
    | Interrupt(id: nat)      // KeyboardInterrupt
    | Cancel(id: nat)         // rollout()'s KeyboardInterrupt, which carries the partial record
  {
    /** True of the exceptions `except Exception` does not catch. */
    predicate Keyboard() {
      Interrupt? || Cancel?
    }
  }

  datatype Reply = Passed | Refused | Raised(exc: Exc)

  datatype Hook = Returns | Raises(exc: Exc) {
    function Reply(): Reply {
      match this
      case Returns => Passed
      case Raises(exc) => Raised(exc)
    }
  }

  datatype Kind =
    | Health | Ready | Arm | Home | SinkStart | PolicyStart | Rollout | Observe
    | Grade | Score | PolicyEnd | SinkEnd | Park | EvalEnd

  /** One call of the trace. `Arm` marks the point after which the platform may have moved. */
  datatype Call = Call(kind: Kind, trial: nat, reply: Reply)

  datatype Status = Success | Error | Cancelled

  /** What the later stages of a trial copy out of its record. */
  datatype Record = Record(
    status: Status, judgement: Option<string>, source: Option<string>, note: Option<string>,
    gradingError: bool, adopted: bool, judgedHint: Option<string>,
    metadata: nat, reason: nat, detail: nat, messages: nat, transcript: nat, id: nat, dir: nat, events: nat)

  datatype RolloutReply =
    | Finished(record: Record)
    | PolicyFailed(id: nat, partial: Option<Record>)
    | Faulted(id: nat, partial: Option<Record>)
    | CancelledBy(id: nat, record: Record)
    | Broke(id: nat)         // any other exception rollout() passes through
    | Interrupted(id: nat)   // a KeyboardInterrupt outside rollout()'s own handler
  {
    function Reply(): Reply {
      match this
      case Finished(_) => Passed
      case PolicyFailed(id, _) => Raised(PolicyFailure(id))
      case Faulted(id, _) => Raised(Halt(id))
      case CancelledBy(id, _) => Raised(Cancel(id))
      case Broke(id) => Raised(Plain(id))
      case Interrupted(id) => Raised(Interrupt(id))
    }
  }

  datatype GradeReply =
    | Graded(judgement: Option<string>, source: Option<string>, note: Option<string>, gradingError: bool,
             judgedHint: Option<string>)
    | GradeRaises(exc: Exc)

  datatype ScoreReply = Value(value: Option<real>) | ScoreRaises(exc: Exc) {
    function Score(): Option<Option<real>> {
      if Value? then Some(value) else None
    }
  }

  /** What every hook of a trial would do; `onEnd` is what the policy's end hook makes of the record. */
  datatype TrialScript = TrialScript(
    health: Reply, ready: Reply, home: Hook, sinkStart: Hook, policyStart: Hook, rollout: RolloutReply,
    startRecord: Record, observe: Hook, grade: GradeReply, scores: string -> ScoreReply,
    policyEnd: Hook, onEnd: Record -> Record, sinkEnd: Hook, park: Hook)

  /** `reducerFails` says for which rubrics the epoch reducer raises on this scene's scores. */
  datatype Scene = Scene(id: string, rubrics: seq<Rubric>, trials: seq<TrialScript>, reducerFails: set<string>)

  /** Which optional hooks the embodiment, the policy and the caller offer. */
  datatype Offers = Offers(
    health: bool, ready: bool, home: bool, park: bool, observe: bool, policyStart: bool, policyEnd: bool,
    grader: bool)

  datatype FailOn = Flag(on: bool) | Threshold(limit: real)

  datatype Config = Config(offers: Offers, failOn: FailOn, epochs: nat)

  // ---------------------------------------------------------------- what a run keeps

  /** One recorded trial; judgement, source and note are captured at the instant of scoring, the rest
      of the columns from the record as the policy's end hook left it. */
  datatype Row = Row(record: Record, last: Record, epoch: map<string, Option<real>>,
                     verdict: Option<string>, source: Option<string>, note: Option<string>)

  /** The twelve parallel columns of a SceneResult. */
  datatype Columns = Columns(
    epochs: seq<map<string, Option<real>>>, judgements: seq<Option<string>>, sources: seq<Option<string>>,
    notes: seq<Option<string>>, metadatas: seq<nat>, reasons: seq<nat>, details: seq<nat>, messages: seq<nat>,
    transcripts: seq<nat>, ids: seq<nat>, dirs: seq<nat>, events: seq<nat>)

  datatype Sample = Sample(sceneId: string, status: Status, columns: Columns, rows: seq<Row>,
                           brokenReductions: set<string>)

  /** `scene` is the status of the scene under way. */
  datatype Ledger = Ledger(
    status: Status, scene: Status, errorCount: nat, totalTrials: nat, erroredTrials: nat, graded: nat, ungraded: nat,
    abstentions: map<string, nat>, halted: bool, cancelled: Option<Exc>, halt: Option<Exc>)

  datatype Log = Log(status: Status, totalTrials: nat, erroredTrials: nat, abstentions: map<string, nat>,
                     samples: seq<Sample>)

  /** How eval() ended; an exception may leave after the log was offered to the sinks. */
  datatype Exit = Returned(log: Log) | Leaves(exc: Exc, offered: Option<Log>)

  /** `trials` counts the trials that were begun. */
  datatype Run = Run(trace: seq<Call>, exit: Exit, trials: nat)

  const EMPTY_COLUMNS := Columns([], [], [], [], [], [], [], [], [], [], [], [])
  const FIRST_LEDGER := Ledger(Success, Success, 0, 0, 0, 0, 0, map[], false, None, None)

  // ---------------------------------------------------------------- reading a trace

  function IsPark(n: nat): Call -> bool {
    (c: Call) => c.kind == Park && c.trial == n
  }

  function Parks(calls: seq<Call>, n: nat): nat {
    Count(calls, IsPark(n))
  }

  /** PolicyError-class failures, the ones `fail_on_error` counts. */
  function IsFailure(): Call -> bool {
    (c: Call) => c.reply.Raised? &&
                 (c.kind == PolicyStart || (c.kind == Rollout && c.reply.exc.PolicyFailure?))
  }

  /** A rollout that ran to completion. */
  function IsDone(): Call -> bool {
    (c: Call) => c.kind == Rollout && c.reply.Passed?
  }

  predicate Keyed(c: Call) {
    c.reply.Raised? && c.reply.exc.Keyboard()
  }

  /** A halt raised by a call whose halt must reach the caller. The rollout's own halt ends only
      this task, and the policy's start and end hooks are contained. */
  predicate Faulty(c: Call) {
    c.reply.Raised? && c.reply.exc.Halt? && c.kind != Rollout && c.kind != PolicyStart && c.kind != PolicyEnd
  }

  /** A rollout that halted or was cancelled: the trial must be the run's last. */
  predicate StopsRun(c: Call) {
    c.kind == Rollout && c.reply.Raised? && (c.reply.exc.Halt? || c.reply.exc.Cancel?)
  }

  /** A reply after which the run can no longer end as a success. */
  predicate Blemish(c: Call) {
    match c.kind
    case Rollout => c.reply.Raised? && !c.reply.exc.PolicyFailure?
    case PolicyStart => false
    case Observe => false
    case _ => c.reply != Passed
  }

  function IsKeyed(): Call -> bool {
    (c: Call) => Keyed(c)
  }

  function KeyedIn(n: nat): Call -> bool {
    (c: Call) => c.trial == n && Keyed(c)
  }

  /** A KeyboardInterrupt in trial `n` that park() did not raise. */
  function KeyedOff(n: nat): Call -> bool {
    (c: Call) => c.trial == n && Keyed(c) && c.kind != Park
  }

  function IsFaulty(): Call -> bool {
    (c: Call) => Faulty(c)
  }

  function IsBlemish(): Call -> bool {
    (c: Call) => Blemish(c)
  }

  function IsStop(): Call -> bool {
    (c: Call) => StopsRun(c)
  }

  function IsBadPark(): Call -> bool {
    (c: Call) => c.kind == Park && c.reply != Passed
  }

  function RaisesExc(exc: Exc): Call -> bool {
    (c: Call) => c.reply == Raised(exc)
  }

  ghost predicate Armed(calls: seq<Call>, n: nat) {
    Call(Arm, n, Passed) in calls
  }

  predicate InterruptedIn(calls: seq<Call>, n: nat) {
    Has(calls, KeyedIn(n))
  }

  predicate RaisedIn(calls: seq<Call>, exc: Exc) {
    Has(calls, RaisesExc(exc))
  }

  /** Every check the embodiment offers passed for trial `n`. */
  ghost predicate ChecksPassed(o: Offers, n: nat, calls: seq<Call>) {
    && (o.health ==> Call(Health, n, Passed) in calls)
    && (o.ready ==> Call(Ready, n, Passed) in calls)
    && (o.home ==> Call(Home, n, Passed) in calls)
    && Armed(calls, n)
  }

  /** A trial that reached home() is parked exactly once, unless a KeyboardInterrupt was raised in
      it; after one, the platform is left to close(). */
  ghost predicate ParkedOnce(o: Offers, calls: seq<Call>, n: nat) {
    && Parks(calls, n) <= (if Armed(calls, n) then 1 else 0)
    && (Armed(calls, n) && o.park && !InterruptedIn(calls, n) ==> Parks(calls, n) == 1)
    && (Has(calls, KeyedOff(n)) ==> Parks(calls, n) == 0)
  }

  /** The call at `i` starts a rollout: its own checks passed before it, and every trial that was
      armed earlier had been parked successfully before it. */
  ghost predicate Guarded(o: Offers, trace: seq<Call>, i: nat)
    requires i < |trace|
  {
    && ChecksPassed(o, trace[i].trial, trace[..i])
    && (o.park ==> forall m :: m != trace[i].trial && Armed(trace[..i], m) ==> Call(Park, m, Passed) in trace[..i])
    && !Has(trace[..i], IsBadPark())
  }

  /** The bracket around every trial of a run. */
  ghost predicate Bracketed(o: Offers, trace: seq<Call>) {
    && (forall i :: 0 <= i < |trace| && trace[i].kind == Rollout ==> Guarded(o, trace, i))
    && (forall n: nat :: ParkedOnce(o, trace, n))
    && (forall i, j :: 0 <= i < j < |trace| && StopsRun(trace[i]) ==>
          trace[j].trial == trace[i].trial || trace[j].kind == EvalEnd)
  }

  // ---------------------------------------------------------------- counts over calls

  /** Every count the proofs use adds up under concatenation. */
  lemma Join(a: seq<Call>, b: seq<Call>, n: nat)
    ensures Count(a + b, IsPark(n)) == Count(a, IsPark(n)) + Count(b, IsPark(n))
    ensures Count(a + b, KeyedIn(n)) == Count(a, KeyedIn(n)) + Count(b, KeyedIn(n))
    ensures Count(a + b, KeyedOff(n)) == Count(a, KeyedOff(n)) + Count(b, KeyedOff(n))
    ensures Count(a + b, IsKeyed()) == Count(a, IsKeyed()) + Count(b, IsKeyed())
    ensures Count(a + b, IsFaulty()) == Count(a, IsFaulty()) + Count(b, IsFaulty())
    ensures Count(a + b, IsBlemish()) == Count(a, IsBlemish()) + Count(b, IsBlemish())
    ensures Count(a + b, IsStop()) == Count(a, IsStop()) + Count(b, IsStop())
    ensures Count(a + b, IsBadPark()) == Count(a, IsBadPark()) + Count(b, IsBadPark())
    ensures Count(a + b, IsFailure()) == Count(a, IsFailure()) + Count(b, IsFailure())
    ensures Count(a + b, IsDone()) == Count(a, IsDone()) + Count(b, IsDone())
    ensures forall e :: RaisedIn(a + b, e) <==> RaisedIn(a, e) || RaisedIn(b, e)
  {
    CountConcat(a, b, IsPark(n));
    CountConcat(a, b, KeyedIn(n));
    CountConcat(a, b, KeyedOff(n));
    CountConcat(a, b, IsKeyed());
    CountConcat(a, b, IsFaulty());
    CountConcat(a, b, IsBlemish());
    CountConcat(a, b, IsStop());
    CountConcat(a, b, IsBadPark());
    CountConcat(a, b, IsFailure());
    CountConcat(a, b, IsDone());
    forall e
      ensures RaisedIn(a + b, e) <==> RaisedIn(a, e) || RaisedIn(b, e)
    {
      CountConcat(a, b, RaisesExc(e));
    }
  }

  lemma NoCalls(n: nat)
    ensures InTrial([], n) && Parks([], n) == Count([], IsFailure()) == Count([], IsDone()) == 0
    ensures !Has([], KeyedIn(n)) && !Has([], KeyedOff(n)) && !Has([], IsFaulty()) && !Has([], IsBlemish())
    ensures !Has([], IsStop())
  {
  }

  lemma Single(c: Call)
    ensures Count([c], IsPark(c.trial)) == (if c.kind == Park then 1 else 0)
    ensures Count([c], KeyedIn(c.trial)) == (if Keyed(c) then 1 else 0)
    ensures Count([c], KeyedOff(c.trial)) == (if Keyed(c) && c.kind != Park then 1 else 0)
    ensures Count([c], IsKeyed()) == (if Keyed(c) then 1 else 0)
    ensures Count([c], IsFaulty()) == (if Faulty(c) then 1 else 0)
    ensures Count([c], IsBlemish()) == (if Blemish(c) then 1 else 0)
    ensures Count([c], IsStop()) == (if StopsRun(c) then 1 else 0)
    ensures Count([c], IsBadPark()) == (if c.kind == Park && c.reply != Passed then 1 else 0)
    ensures Count([c], IsFailure()) == (if IsFailure()(c) then 1 else 0)
    ensures Count([c], IsDone()) == (if IsDone()(c) then 1 else 0)
    ensures forall e :: RaisedIn([c], e) <==> c.reply == Raised(e)
  {
    CountOne(c, IsPark(c.trial));
    CountOne(c, KeyedIn(c.trial));
    CountOne(c, KeyedOff(c.trial));
    CountOne(c, IsKeyed());
    CountOne(c, IsFaulty());
    CountOne(c, IsBlemish());
    CountOne(c, IsStop());
    CountOne(c, IsBadPark());
    CountOne(c, IsFailure());
    CountOne(c, IsDone());
    forall e
      ensures RaisedIn([c], e) <==> c.reply == Raised(e)
    {
      CountOne(c, RaisesExc(e));
    }
  }

  /** The calls of trial `n`, and no end of run. */
  ghost predicate InTrial(calls: seq<Call>, n: nat) {
    forall c :: c in calls ==> c.trial == n && c.kind != EvalEnd
  }

  lemma AllHere(calls: seq<Call>, n: nat)
    requires InTrial(calls, n)
    ensures Count(calls, IsKeyed()) == Count(calls, KeyedIn(n))
  {
    CountSame(calls, IsKeyed(), KeyedIn(n));
  }

  lemma NoneHere(calls: seq<Call>, n: nat)
    requires forall c :: c in calls ==> c.trial != n
    ensures Parks(calls, n) == 0 && !InterruptedIn(calls, n) && !Has(calls, KeyedOff(n)) && !Armed(calls, n)
  {
    CountNone(calls, IsPark(n));
    CountNone(calls, KeyedIn(n));
    CountNone(calls, KeyedOff(n));
  }

  // ---------------------------------------------------------------- what a call decides

  /** A reply whose exception leaves the run, with no log. */
  predicate Deadly(c: Call) {
    && c.reply.Raised?
    && match c.kind
       case Health | Ready | Arm | Home | Park | PolicyStart | PolicyEnd => c.reply.exc.Keyboard()
       case SinkStart | SinkEnd | Grade => true
       case Rollout => c.reply.exc.Plain? || c.reply.exc.Interrupt?
       case Observe | Score => c.reply.exc.Halt? || c.reply.exc.Keyboard()
       case EvalEnd => false
  }

  /** A reply after which no other trial begins, though the log is delivered. */
  predicate Final(c: Call) {
    match c.kind
    case Health | Ready | Home | Park => c.reply != Passed
    case Rollout => StopsRun(c)
    case _ => false
  }

  ghost predicate AnyDeadly(calls: seq<Call>) {
    exists c :: c in calls && Deadly(c)
  }

  ghost predicate AnyFinal(calls: seq<Call>) {
    exists c :: c in calls && Final(c)
  }

  ghost predicate AnyKeyed(calls: seq<Call>) {
    exists c :: c in calls && Keyed(c)
  }

  /** The calls up to the first whose exception leaves the run. */
  function Cut(plan: seq<Call>): seq<Call> {
    if plan == [] then [] else if Deadly(plan[0]) then [plan[0]] else [plan[0]] + Cut(plan[1..])
  }

  /** The exception of that call. */
  function DeadlyExc(plan: seq<Call>): Option<Exc> {
    if plan == [] then None
    else if Deadly(plan[0]) then Some(plan[0].reply.exc)
    else DeadlyExc(plan[1..])
  }

  /** The first halt that must reach the caller. */
  function FirstFaulty(calls: seq<Call>): Option<Exc> {
    if calls == [] then None
    else if Faulty(calls[0]) then Some(calls[0].reply.exc)
    else FirstFaulty(calls[1..])
  }

  /** A park() whose exception outranks the one that is leaving. */
  predicate Outranks(park: Hook) {
    park.Raises? && (park.exc.Halt? || park.exc.Keyboard())
  }

  /** What leaves the run after these calls, if anything: the first deadly call's exception, or that of
      the park() that followed it. */
  function LastWord(calls: seq<Call>): Option<Exc> {
    var deadly := DeadlyExc(calls);
    if deadly.None? then None
    else
      var last := calls[|calls| - 1];
      if last.kind == Park && last.reply.Raised? && (last.reply.exc.Halt? || last.reply.exc.Keyboard())
      then Some(last.reply.exc) else deadly
  }

  /** A stage of an open trial: its plan up to the first deadly call, then a park unless interrupted. */
  ghost function Closing(o: Offers, n: nat, plan: seq<Call>, park: Hook, quiet: bool): seq<Call> {
    Cut(plan) + (if AnyDeadly(plan) && !quiet && !AnyKeyed(Cut(plan)) then ParkCalls(o, n, park) else [])
  }

  /** What leaves the run from such a stage. */
  ghost function Leaving(o: Offers, plan: seq<Call>, park: Hook, quiet: bool): Option<Exc> {
    var deadly := DeadlyExc(plan);
    if deadly.Some? && !quiet && !AnyKeyed(Cut(plan)) && o.park && Outranks(park) then Some(park.exc) else deadly
  }

  /** A stage made exactly the calls its plan asks for, and let out exactly what it asks for. */
  ghost predicate Closed(o: Offers, n: nat, plan: seq<Call>, park: Hook, quiet: bool, calls: seq<Call>,
                         escaped: Option<Exc>)
  {
    calls == Closing(o, n, plan, park, quiet) && escaped == Leaving(o, plan, park, quiet)
  }

  /** Two closed stages in a row, the second only if nothing left in the first. */
  lemma ClosedThen(o: Offers, n: nat, a: seq<Call>, b: seq<Call>, park: Hook, quiet: bool,
                   calls: seq<Call>, more: seq<Call>, escaped: Option<Exc>)
    requires Closed(o, n, a, park, quiet, calls, None)
    requires Closed(o, n, b, park, quiet || AnyKeyed(calls), more, escaped)
    ensures calls == a && Closed(o, n, a + b, park, quiet, calls + more, escaped)
  {
    hide Closing, Leaving;
    ClosingThen(o, n, a, b, park, quiet);
  }

  lemma ClosedEarly(o: Offers, n: nat, a: seq<Call>, b: seq<Call>, park: Hook, quiet: bool,
                    calls: seq<Call>, escaped: Option<Exc>)
    requires Closed(o, n, a, park, quiet, calls, escaped) && escaped.Some?
    ensures Closed(o, n, a + b, park, quiet, calls, escaped)
  {
    hide Closing, Leaving;
    ClosingThen(o, n, a, b, park, quiet);
  }

  lemma ClosedNothing(o: Offers, n: nat, park: Hook, quiet: bool)
    ensures Closed(o, n, [], park, quiet, [], None)
  {
  }

  lemma {:induction false} CutMeans(plan: seq<Call>)
    ensures AnyDeadly(plan) <==> DeadlyExc(plan).Some?
    ensures AnyDeadly(Cut(plan)) <==> AnyDeadly(plan)
    ensures !AnyDeadly(plan) ==> Cut(plan) == plan
    ensures DeadlyExc(Cut(plan)) == DeadlyExc(plan)
    ensures forall c :: c in Cut(plan) ==> c in plan
  {
    if plan != [] {
      var first, rest := plan[0], plan[1..];
      assert plan == [first] + rest;
      CutMeans(rest);
      if !Deadly(first) {
        var cut := Cut(plan);
        assert cut[0] == first && cut[1..] == Cut(rest);
        if c :| c in plan && Deadly(c) {
          assert c in rest;
        }
        if c :| c in Cut(rest) && Deadly(c) {
          assert c in cut;
        }
      }
    }
  }

  lemma {:induction false} CutConcat(a: seq<Call>, b: seq<Call>)
    ensures AnyDeadly(a) ==> Cut(a + b) == Cut(a) && DeadlyExc(a + b) == DeadlyExc(a)
    ensures !AnyDeadly(a) ==> Cut(a + b) == a + Cut(b) && DeadlyExc(a + b) == DeadlyExc(b)
    ensures AnyDeadly(a + b) <==> AnyDeadly(a) || AnyDeadly(b)
    ensures AnyFinal(a + b) <==> AnyFinal(a) || AnyFinal(b)
    ensures AnyKeyed(a + b) <==> AnyKeyed(a) || AnyKeyed(b)
    ensures FirstFaulty(a + b) == if FirstFaulty(a).Some? then FirstFaulty(a) else FirstFaulty(b)
  {
    AnyConcat(a, b);
    if a == [] {
      assert a + b == b;
    } else {
      assert (a + b)[1..] == a[1..] + b && a == [a[0]] + a[1..];
      CutConcat(a[1..], b);
      AnyConcat([a[0]], a[1..]);
      hide Deadly, Faulty, Final;
      ConcatAssociates([a[0]], a[1..], Cut(b));
    }
  }

  lemma AnyConcat(a: seq<Call>, b: seq<Call>)
    ensures AnyDeadly(a + b) <==> AnyDeadly(a) || AnyDeadly(b)
    ensures AnyFinal(a + b) <==> AnyFinal(a) || AnyFinal(b)
    ensures AnyKeyed(a + b) <==> AnyKeyed(a) || AnyKeyed(b)
  {
    assert forall c :: c in a + b <==> c in a || c in b;
  }

  /** Two stages in a row are one stage of the joined plan. */
  lemma ClosingThen(o: Offers, n: nat, a: seq<Call>, b: seq<Call>, park: Hook, quiet: bool)
    ensures AnyDeadly(a) <==> Leaving(o, a, park, quiet).Some?
    ensures
      AnyDeadly(a)
      ==>
        && Closing(o, n, a + b, park, quiet) == Closing(o, n, a, park, quiet)
        && Leaving(o, a + b, park, quiet) == Leaving(o, a, park, quiet)
    ensures
      !AnyDeadly(a)
      ==>
        && Closing(o, n, a, park, quiet) == a
        && Closing(o, n, a + b, park, quiet) == a + Closing(o, n, b, park, quiet || AnyKeyed(a))
        && Leaving(o, a + b, park, quiet) == Leaving(o, b, park, quiet || AnyKeyed(a))
  {
    CutMeans(a);
    CutMeans(b);
    CutConcat(a, b);
    AnyConcat(a, Cut(b));
    ConcatEmpty(a);
    hide Deadly, Keyed, AnyDeadly, AnyKeyed, Cut, DeadlyExc;
    if !AnyDeadly(a) {
      var tail := if AnyDeadly(b) && !(quiet || AnyKeyed(a)) && !AnyKeyed(Cut(b)) then ParkCalls(o, n, park) else [];
      ConcatAssociates(a, Cut(b), tail);
    }
  }

  /** One call as a stage. */
  lemma ClosingOne(o: Offers, n: nat, c: Call, park: Hook, quiet: bool)
    ensures Leaving(o, [], park, quiet) == None && Closing(o, n, [], park, quiet) == []
    ensures
      Leaving(o, [c], park, quiet)
      == if !Deadly(c) then None
         else if !quiet && !Keyed(c) && o.park && Outranks(park) then Some(park.exc) else Some(c.reply.exc)
    ensures
      Closing(o, n, [c], park, quiet)
      == if Deadly(c) && !quiet && !Keyed(c) then [c] + ParkCalls(o, n, park) else [c]
  {
    CutMeans([c]);
    assert Cut([c]) == [c];
    assert DeadlyExc([c]) == if Deadly(c) then Some(c.reply.exc) else None;
    assert AnyKeyed([c]) <==> Keyed(c);
    assert AnyDeadly([c]) <==> Deadly(c) by {
      assert c in [c];
    }
    ConcatEmpty([c]);
  }

  /** How a scene's status reads after a call. */
  function SceneNext(status: Status, c: Call): Status {
    if c.reply == Passed || c.kind == Observe then status
    else if c.kind == Rollout && c.reply.Raised? && c.reply.exc.Cancel? then Cancelled
    else Status.Error
  }

  /** The scene's status after these calls: each one that went wrong overwrites it. */
  function SceneAfter(status: Status, calls: seq<Call>): Status {
    if calls == [] then status
    else SceneNext(SceneAfter(status, calls[..|calls| - 1]), calls[|calls| - 1])
  }

  lemma {:induction false} SceneConcat(status: Status, a: seq<Call>, b: seq<Call>)
    ensures SceneAfter(status, a + b) == SceneAfter(SceneAfter(status, a), b)
  {
    if b == [] {
      assert a + b == a;
    } else {
      assert (a + b)[..|a + b| - 1] == a + b[..|b| - 1];
      SceneConcat(status, a, b[..|b| - 1]);
    }
  }

  // ---------------------------------------------------------------- the bracket, trial by trial

  /** What one trial adds to the trace. */
  ghost predicate TrialShape(o: Offers, n: nat, calls: seq<Call>) {
    && InTrial(calls, n)
    && (forall i :: 0 <= i < |calls| && calls[i].kind == Rollout ==>
          ChecksPassed(o, n, calls[..i]) && Parks(calls[..i], n) == 0)
    && ParkedOnce(o, calls, n)
  }

  /** Between trials: everything armed has been parked, and parking never failed. */
  ghost predicate AtRest(o: Offers, trace: seq<Call>) {
    && !Has(trace, IsBadPark())
    && (o.park ==> forall m: nat :: Armed(trace, m) ==> Call(Park, m, Passed) in trace)
    && !Has(trace, IsKeyed()) && !Has(trace, IsFaulty()) && !Has(trace, IsStop())
    && (forall c :: c in trace ==> c.kind != EvalEnd)
  }

  lemma RolloutGuarded(o: Offers, trace: seq<Call>, n: nat, calls: seq<Call>, k: nat)
    requires AtRest(o, trace) && TrialShape(o, n, calls) && k < |calls| && calls[k].kind == Rollout
    ensures Guarded(o, trace + calls, |trace| + k)
  {
    hide Count;
    var before := trace + calls[..k];
    assert (trace + calls)[..|trace| + k] == before;
    assert calls[k] in calls;
    CountConcat(trace, calls[..k], IsBadPark());
    if Has(calls[..k], IsBadPark()) {
      CountSome(calls[..k], IsBadPark());
      var c :| c in calls[..k] && IsBadPark()(c);
      assert c in calls;
      HasMeans(calls[..k], IsPark(n));
    }
    forall m | o.park && m != n && Armed(before, m)
      ensures Call(Park, m, Passed) in before
    {
      assert forall c :: c in calls[..k] ==> c in calls;
      assert Armed(trace, m);
    }
  }

  /** Appending one trial to a bracketed trace at rest keeps it bracketed. */
  lemma BracketExtends(o: Offers, trace: seq<Call>, n: nat, calls: seq<Call>)
    requires Bracketed(o, trace) && AtRest(o, trace)
    requires forall c :: c in trace ==> c.trial < n
    requires TrialShape(o, n, calls)
    ensures Bracketed(o, trace + calls)
  {
    hide Count;
    var whole := trace + calls;
    forall i | 0 <= i < |whole| && whole[i].kind == Rollout
      ensures Guarded(o, whole, i)
    {
      if i < |trace| {
        assert whole[..i] == trace[..i];
        assert Guarded(o, trace, i);
      } else {
        RolloutGuarded(o, trace, n, calls, i - |trace|);
      }
    }
    forall m: nat
      ensures ParkedOnce(o, whole, m)
    {
      Join(trace, calls, m);
      if m == n {
        NoneHere(trace, m);
      } else {
        assert ParkedOnce(o, trace, m);
        NoneHere(calls, m);
      }
    }
    HasMeans(trace, IsStop());
    assert forall i :: 0 <= i < |trace| ==> whole[i] in trace && !StopsRun(whole[i]);
    assert forall i :: |trace| <= i < |whole| ==> whole[i] in calls;
  }

  // ---------------------------------------------------------------- the hooks around a trial

  function HaltOf(exc: Exc): Option<Exc> {
    if exc.Halt? then Some(exc) else None
  }

  function ParkCalls(o: Offers, n: nat, park: Hook): seq<Call> {
    if o.park then [Call(Park, n, park.Reply())] else []
  }

  lemma ParkCounts(o: Offers, n: nat, park: Hook)
    ensures
      var calls := ParkCalls(o, n, park);
      && InTrial(calls, n)
      && Parks(calls, n) == |calls| == (if o.park then 1 else 0)
      && Count(calls, KeyedOff(n)) == Count(calls, IsFailure()) == Count(calls, IsDone()) == Count(calls, IsStop()) == 0
      && (InterruptedIn(calls, n) <==> o.park && park.Raises? && park.exc.Keyboard())
      && (Has(calls, IsFaulty()) <==> o.park && park.Raises? && park.exc.Halt?)
      && (Has(calls, IsBlemish()) <==> o.park && park.Raises?)
      && (Has(calls, IsBadPark()) <==> o.park && park.Raises?)
      && (o.park && park.Raises? ==> RaisedIn(calls, park.exc))
  {
    if o.park {
      Single(Call(Park, n, park.Reply()));
    }
  }

  /** Calls park if offered. An ordinary failure is reported, with the halt it was if it was one. */
  method ParkRobot(o: Offers, n: nat, park: Hook) returns (calls: seq<Call>, failed: bool, halt: Option<Exc>,
                                                           escaped: Option<Exc>)
    ensures calls == ParkCalls(o, n, park)
    ensures escaped == if o.park && park.Raises? && park.exc.Keyboard() then Some(park.exc) else None
    ensures failed <==> o.park && park.Raises? && !park.exc.Keyboard()
    ensures halt == if failed then HaltOf(park.exc) else None
  {
    calls, failed, halt, escaped := [], false, None, None;
    if o.park {
      calls := [Call(Park, n, park.Reply())];
      if park.Raises? {
        if park.exc.Keyboard() {
          escaped := Some(park.exc);
        } else {
          failed := true;
          halt := HaltOf(park.exc);
        }
      }
    }
  }

  datatype Start = Go | NotReady(halt: Option<Exc>) | StartEscapes(exc: Exc)

  /** What the checks before a trial leave in the trace. */
  ghost predicate Explained(n: nat, calls: seq<Call>, start: Start) {
    match start
    case Go => !InterruptedIn(calls, n) && !Has(calls, IsFaulty()) && !Has(calls, IsBlemish())
    case NotReady(halt) =>
      && Has(calls, IsBlemish()) && !InterruptedIn(calls, n)
      && (halt.Some? <==> Has(calls, IsFaulty()))
      && (halt.Some? ==> halt.value.Halt? && RaisedIn(calls, halt.value))
    case StartEscapes(exc) => exc.Keyboard() && RaisedIn(calls, exc)
  }

  /** How the checks before a trial end, read off their calls. */
  ghost predicate Decided(calls: seq<Call>, start: Start) {
    match start
    case Go =>
      && !AnyDeadly(calls) && !AnyFinal(calls) && FirstFaulty(calls).None?
      && forall status :: SceneAfter(status, calls) == status
    case NotReady(halt) =>
      && !AnyDeadly(calls) && AnyFinal(calls) && halt == FirstFaulty(calls)
      && forall status :: SceneAfter(status, calls) == Status.Error
    case StartEscapes(exc) => LastWord(calls) == Some(exc)
  }

  lemma NothingDecided()
    ensures Decided([], Go) && LastWord([]) == None && FirstFaulty([]) == None
  {
  }

  /** What a single call decides. */
  lemma OneCall(c: Call)
    ensures AnyDeadly([c]) <==> Deadly(c)
    ensures AnyFinal([c]) <==> Final(c)
    ensures AnyKeyed([c]) <==> Keyed(c)
    ensures DeadlyExc([c]) == LastWord([c]) == if Deadly(c) then Some(c.reply.exc) else None
    ensures FirstFaulty([c]) == if Faulty(c) then Some(c.reply.exc) else None
    ensures forall status :: SceneAfter(status, [c]) == SceneNext(status, c)
  {
    assert c in [c];
    assert [c][..0] == [] && [c][1..] == [];
  }

  lemma LastWordAfter(a: seq<Call>, b: seq<Call>)
    requires !AnyDeadly(a)
    ensures LastWord(a + b) == LastWord(b)
  {
    CutConcat(a, b);
    CutMeans(b);
    if b != [] {
      assert (a + b)[|a + b| - 1] == b[|b| - 1];
    }
  }

  lemma DecidedAfter(a: seq<Call>, b: seq<Call>, start: Start)
    requires Decided(a, Go) && Decided(b, start)
    ensures Decided(a + b, start)
  {
    CutConcat(a, b);
    LastWordAfter(a, b);
    forall status
      ensures SceneAfter(status, a + b) == SceneAfter(status, b)
    {
      SceneConcat(status, a, b);
    }
  }

  /** What the park of a platform that failed to home decides. */
  lemma HomeDecides(o: Offers, n: nat, exc: Exc, park: Hook)
    requires !exc.Keyboard()
    ensures
      var calls := [Call(Home, n, Raised(exc))] + ParkCalls(o, n, park);
      if o.park && park.Raises? && park.exc.Keyboard() then Decided(calls, StartEscapes(park.exc))
      else
        Decided(calls, NotReady(if exc.Halt? then Some(exc)
                                else if o.park && park.Raises? then HaltOf(park.exc) else None))
  {
    var home, parked := Call(Home, n, Raised(exc)), Call(Park, n, park.Reply());
    OneCall(home);
    OneCall(parked);
    NothingDecided();
    CutConcat([home], ParkCalls(o, n, park));
    LastWordAfter([home], ParkCalls(o, n, park));
    forall status
      ensures SceneAfter(status, [home] + ParkCalls(o, n, park)) == Status.Error
    {
      SceneConcat(status, [home], ParkCalls(o, n, park));
    }
  }

  lemma ExplainedAfter(n: nat, a: seq<Call>, b: seq<Call>, start: Start)
    requires Explained(n, a, Go) && Explained(n, b, start)
    ensures Explained(n, a + b, start)
  {
    Join(a, b, n);
  }

  /** One readiness check: health() or prepare_trial(). */
  method Consult(kind: Kind, offered: bool, n: nat, reply: Reply) returns (calls: seq<Call>, start: Start)
    requires kind in {Health, Ready}
    ensures calls == if offered then [Call(kind, n, reply)] else []
    ensures start.Go? <==> !offered || reply.Passed?
    ensures Explained(n, calls, start) && Decided(calls, start)
  {
    calls, start := [], Go;
    if offered {
      calls := [Call(kind, n, reply)];
      Single(calls[0]);
      OneCall(calls[0]);
      if reply.Raised? {
        start := if reply.exc.Keyboard() then StartEscapes(reply.exc) else NotReady(HaltOf(reply.exc));
      } else if reply.Refused? {
        start := NotReady(None);
      }
    }
  }

  predicate ChecksPass(o: Offers, s: TrialScript) {
    (!o.health || s.health.Passed?) && (!o.ready || s.ready.Passed?)
  }

  /** The readiness checks of a trial, in their order, up to the first that does not pass. */
  function CheckCalls(o: Offers, n: nat, s: TrialScript): seq<Call> {
    var health := if o.health then [Call(Health, n, s.health)] else [];
    if o.health && !s.health.Passed? then health
    else health + (if o.ready then [Call(Ready, n, s.ready)] else [])
  }

  /** home() after them, and the park of a platform that failed to home. */
  function HomeCalls(o: Offers, n: nat, home: Hook, park: Hook): seq<Call> {
    [Call(Arm, n, Passed)] + (if o.home then [Call(Home, n, home.Reply())] else [])
    + (if o.home && home.Raises? && !home.exc.Keyboard() then ParkCalls(o, n, park) else [])
  }

  /** health() and prepare_trial(), in that order. */
  method CheckPlatform(o: Offers, n: nat, s: TrialScript) returns (calls: seq<Call>, start: Start)
    ensures forall c :: c in calls ==> c.trial == n && c.kind in {Health, Ready}
    ensures Explained(n, calls, start) && Decided(calls, start)
    ensures start.Go? && o.health ==> Call(Health, n, Passed) in calls
    ensures start.Go? && o.ready ==> Call(Ready, n, Passed) in calls
    ensures start.Go? <==> ChecksPass(o, s)
    ensures calls == CheckCalls(o, n, s)
  {
    calls, start := Consult(Health, o.health, n, s.health);
    if !start.Go? {
      return;
    }
    var more;
    more, start := Consult(Ready, o.ready, n, s.ready);
    ExplainedAfter(n, calls, more, start);
    DecidedAfter(calls, more, start);
    calls := calls + more;
  }

  /** home(); a platform that failed to home may have moved, so it is parked. */
  method HomeRobot(o: Offers, n: nat, home: Hook, park: Hook) returns (calls: seq<Call>, start: Start)
    ensures InTrial(calls, n) && forall c :: c in calls ==> c.kind in {Arm, Home, Park}
    ensures Explained(n, calls, start) && Decided(calls, start)
    ensures Armed(calls, n)
    ensures start.Go? ==> Parks(calls, n) == 0 && (o.home ==> Call(Home, n, Passed) in calls)
    ensures Parks(calls, n) <= 1 && (Has(calls, KeyedOff(n)) ==> Parks(calls, n) == 0)
    ensures !start.Go? && o.park && !InterruptedIn(calls, n) ==> Parks(calls, n) == 1
    ensures start.Go? <==> !o.home || home.Returns?
    ensures calls == HomeCalls(o, n, home, park)
  {
    hide Count, Decided;
    var arm := Call(Arm, n, Passed);
    calls, start := [arm], Go;
    Single(arm);
    ArmDecides(n);
    if o.home {
      var homed := Call(Home, n, home.Reply());
      Single(homed);
      Join([arm], [homed], n);
      calls := [arm] + [homed];
      if home.Raises? {
        if home.exc.Keyboard() {
          start := StartEscapes(home.exc);
          HomeAlone(n, home, start);
          DecidedAfter([arm], [homed], start);
          return;
        }
        var parked, failed, halt, escaped := ParkRobot(o, n, park);
        ParkCounts(o, n, park);
        Join(calls, parked, n);
        if escaped.Some? {
          start := StartEscapes(escaped.value);
        } else {
          start := NotReady(if home.exc.Halt? then Some(home.exc) else halt);
        }
        HomeDecides(o, n, home.exc, park);
        DecidedAfter([arm], [homed] + parked, start);
        ConcatAssociates([arm], [homed], parked);
        calls := calls + parked;
      } else {
        HomeAlone(n, home, Go);
        DecidedAfter([arm], [homed], Go);
      }
    }
  }

  lemma ArmDecides(n: nat)
    ensures Decided([Call(Arm, n, Passed)], Go)
  {
    OneCall(Call(Arm, n, Passed));
  }

  lemma HomeAlone(n: nat, home: Hook, start: Start)
    requires start == if home.Returns? then Go else StartEscapes(home.exc)
    requires home.Raises? ==> home.exc.Keyboard()
    ensures Decided([Call(Home, n, home.Reply())], start)
  {
    OneCall(Call(Home, n, home.Reply()));
  }

  /** The trial is under way: armed and checked, with nothing parked yet. */
  ghost predicate Open(o: Offers, n: nat, calls: seq<Call>) {
    && InTrial(calls, n)
    && Parks(calls, n) == 0
    && (forall i :: 0 <= i < |calls| && calls[i].kind == Rollout ==>
          ChecksPassed(o, n, calls[..i]) && Parks(calls[..i], n) == 0)
    && ChecksPassed(o, n, calls)
  }

  /** health, prepare_trial and home, in that order; why the trial may not start. */
  method BeforeTrial(o: Offers, n: nat, s: TrialScript) returns (calls: seq<Call>, start: Start)
    ensures forall c :: c in calls ==> c.kind in {Health, Ready, Arm, Home, Park}
    ensures start.Go? ==> Open(o, n, calls)
    ensures !start.Go? ==> TrialShape(o, n, calls)
    ensures Explained(n, calls, start)
    ensures s.health.Passed? && s.ready.Passed? && s.home.Returns? ==> start.Go?
    ensures calls == BeforeCalls(o, n, s) && Decided(calls, start)
    ensures start.Go? <==> Reached(o, s)
  {
    hide Count, HomeCalls, CheckCalls, Decided;
    calls, start := CheckPlatform(o, n, s);
    ConcatEmpty(calls);
    CountNone(calls, IsPark(n));
    if !start.Go? {
      return;
    }
    var more;
    more, start := HomeRobot(o, n, s.home, s.park);
    ExplainedAfter(n, calls, more, start);
    DecidedAfter(calls, more, start);
    Join(calls, more, n);
    CountNone(calls, KeyedOff(n)) by {
      HasMeans(calls, KeyedIn(n));
    }
    calls := calls + more;
  }

  // ---------------------------------------------------------------- what a trial plans to call

  function SinkPlan(n: nat, s: TrialScript): seq<Call> {
    [Call(SinkStart, n, s.sinkStart.Reply())]
  }

  function StartPlan(o: Offers, n: nat, s: TrialScript): seq<Call> {
    if o.policyStart then [Call(PolicyStart, n, s.policyStart.Reply())] else []
  }

  /** The policy's start hook did not keep the rollout from starting. */
  predicate Started(o: Offers, s: TrialScript) {
    !(o.policyStart && s.policyStart.Raises?)
  }

  function RollPlan(n: nat, s: TrialScript): seq<Call> {
    [Call(Rollout, n, s.rollout.Reply())]
  }

  function RunPlan(o: Offers, n: nat, s: TrialScript): seq<Call> {
    SinkPlan(n, s) + (StartPlan(o, n, s) + (if Started(o, s) then RollPlan(n, s) else []))
  }

  function ObservePlan(o: Offers, n: nat, s: TrialScript, record: Record): seq<Call> {
    if o.observe && record.judgement.None? && !record.adopted then [Call(Observe, n, s.observe.Reply())] else []
  }

  /** With a grading hook, only unjudged, unadopted trials are observed parked; every trial is graded. */
  function GradePlan(o: Offers, n: nat, s: TrialScript, record: Record): seq<Call> {
    if !o.grader then []
    else
      ObservePlan(o, n, s, record)
      + [Call(Grade, n, if s.grade.Graded? then Passed else Raised(s.grade.exc))]
  }

  /** The record as the grading hook left it. */
  function Graded(o: Offers, s: TrialScript, record: Record): Record {
    if !o.grader || s.grade.GradeRaises? then record
    else
      record.(judgement := s.grade.judgement, source := s.grade.source, note := s.grade.note,
              gradingError := s.grade.gradingError, judgedHint := s.grade.judgedHint)
  }

  /** One rubric: nothing when the verdict belongs to another judgement rubric, else its scorer. */
  function ScoreOnePlan(n: nat, r: Rubric, judged: Option<string>, reply: ScoreReply): seq<Call> {
    if judged.Some? && r.name != judged.value && r.readsJudgement then []
    else [Call(Score, n, if reply.Value? then Passed else Raised(reply.exc))]
  }

  function ScorePlan(n: nat, rubrics: seq<Rubric>, judged: Option<string>, scores: string -> ScoreReply): seq<Call> {
    if rubrics == [] then []
    else
      var last := rubrics[|rubrics| - 1];
      ScorePlan(n, rubrics[..|rubrics| - 1], judged, scores) + ScoreOnePlan(n, last, judged, scores(last.name))
  }

  /** Only a successful trial is graded and scored. */
  function RecordPlan(o: Offers, n: nat, s: TrialScript, rubrics: seq<Rubric>, record: Record): seq<Call> {
    if record.status != Success then []
    else
      var graded := Graded(o, s, record);
      GradePlan(o, n, s, record)
      + ScorePlan(n, rubrics, JudgedRubric(rubrics, graded.judgement, graded.judgedHint), s.scores)
  }

  function EndPlan(o: Offers, n: nat, s: TrialScript): seq<Call> {
    (if o.policyEnd && Started(o, s) then [Call(PolicyEnd, n, s.policyEnd.Reply())] else [])
    + [Call(SinkEnd, n, s.sinkEnd.Reply())]
  }

  /** What is done with a trial's record, if it left one. */
  function CapturePlan(o: Offers, n: nat, s: TrialScript, rubrics: seq<Rubric>): seq<Call> {
    match TrialRecord(o, s)
    case None => []
    case Some(record) => RecordPlan(o, n, s, rubrics, record) + EndPlan(o, n, s)
  }

  /** Everything between home() and park(), if nothing leaves the run. */
  function BodyPlan(o: Offers, n: nat, s: TrialScript, rubrics: seq<Rubric>): seq<Call> {
    RunPlan(o, n, s) + CapturePlan(o, n, s, rubrics)
  }

  /** home() was reached and did not fail. */
  predicate Reached(o: Offers, s: TrialScript) {
    ChecksPass(o, s) && !(o.home && s.home.Raises?)
  }

  function BeforeCalls(o: Offers, n: nat, s: TrialScript): seq<Call> {
    if ChecksPass(o, s) then CheckCalls(o, n, s) + HomeCalls(o, n, s.home, s.park) else CheckCalls(o, n, s)
  }

  /**
   The calls of a trial: the checks and home() up to the first that fails; then the plan up to the
   first call whose exception leaves the run, and park() unless there was a keyboard interrupt.
   */
  ghost function TrialCalls(o: Offers, n: nat, s: TrialScript, rubrics: seq<Rubric>): seq<Call> {
    if !Reached(o, s) then BeforeCalls(o, n, s)
    else
      var body := Cut(BodyPlan(o, n, s, rubrics));
      BeforeCalls(o, n, s) + body + (if AnyKeyed(body) then [] else ParkCalls(o, n, s.park))
  }

  // ---------------------------------------------------------------- inside a trial

  /** What one stage of an open trial adds; `quiet` when the trial was interrupted before it. */
  ghost predicate Stage(o: Offers, n: nat, calls: seq<Call>, quiet: bool, escaped: Option<Exc>) {
    && (forall c :: c in calls ==> c.trial == n && c.kind !in {Arm, EvalEnd})
    && (forall i :: 0 <= i < |calls| && calls[i].kind == Rollout ==> Parks(calls[..i], n) == 0)
    && Parks(calls, n) <= 1
    && (quiet || Has(calls, KeyedOff(n)) ==> Parks(calls, n) == 0)
    && (match escaped
        case None => Parks(calls, n) == 0 && !Has(calls, IsFaulty())
        case Some(exc) =>
          && RaisedIn(calls, exc)
          && (o.park && !quiet && !InterruptedIn(calls, n) ==> Parks(calls, n) == 1)
          && (Has(calls, IsFaulty()) ==> exc.Halt? || exc.Keyboard()))
  }

  lemma StageNothing(o: Offers, n: nat, quiet: bool)
    ensures Stage(o, n, [], quiet, None)
  {
    NoCalls(n);
  }

  lemma OffKeyed(calls: seq<Call>, n: nat)
    ensures Has(calls, KeyedOff(n)) ==> InterruptedIn(calls, n)
    ensures Parks(calls, n) == 0 && InterruptedIn(calls, n) ==> Has(calls, KeyedOff(n))
  {
    HasMeans(calls, KeyedOff(n));
    HasMeans(calls, KeyedIn(n));
    HasMeans(calls, IsPark(n));
  }

  lemma StageJoins(o: Offers, n: nat, before: seq<Call>, calls: seq<Call>, escaped: Option<Exc>)
    requires Open(o, n, before)
    requires Stage(o, n, calls, InterruptedIn(before, n), escaped)
    ensures escaped.None? ==> Open(o, n, before + calls)
    ensures escaped.Some? ==> TrialShape(o, n, before + calls)
  {
    hide Count;
    var whole := before + calls;
    Join(before, calls, n);
    OffKeyed(before, n);
    forall i | 0 <= i < |whole| && whole[i].kind == Rollout
      ensures ChecksPassed(o, n, whole[..i])
      ensures Parks(whole[..i], n) == 0
    {
      if i < |before| {
        assert whole[..i] == before[..i];
      } else {
        assert whole[..i] == before + calls[..i - |before|];
        CountConcat(before, calls[..i - |before|], IsPark(n));
      }
    }
  }

  /** Closing an open trial: with a park, or quietly after an interrupt. */
  lemma ParkCloses(o: Offers, n: nat, before: seq<Call>, park: Hook)
    requires Open(o, n, before)
    ensures InterruptedIn(before, n) ==> TrialShape(o, n, before)
    ensures !InterruptedIn(before, n) ==> TrialShape(o, n, before + ParkCalls(o, n, park))
  {
    var whole := before + ParkCalls(o, n, park);
    ParkCounts(o, n, park);
    Join(before, ParkCalls(o, n, park), n);
    OffKeyed(before, n);
    assert forall i :: 0 <= i < |before| ==> whole[..i] == before[..i] && whole[i] == before[i];
  }

  /** A single call, as a stage. */
  lemma StageOne(o: Offers, n: nat, c: Call, quiet: bool, escaped: Option<Exc>)
    requires c.trial == n && c.kind !in {Arm, Park, EvalEnd}
    requires escaped.None? ==> !Faulty(c)
    requires escaped.Some? ==> c.reply == Raised(escaped.value) && (o.park && !quiet ==> escaped.value.Keyboard())
    ensures Stage(o, n, [c], quiet, escaped)
  {
    Single(c);
  }

  /** An exception leaves the trial: park first, then let it go; a halt raised by park outranks it. */
  method LeaveParked(o: Offers, n: nat, c: Call, park: Hook) returns (calls: seq<Call>, leaving: Exc)
    requires c.trial == n && c.kind !in {Arm, Park, EvalEnd}
    requires c.reply.Raised? && !c.reply.exc.Keyboard()
    ensures Stage(o, n, calls, false, Some(leaving))
    ensures calls == [c] + ParkCalls(o, n, park)
    ensures leaving == if o.park && park.Raises? && (park.exc.Halt? || park.exc.Keyboard()) then park.exc else c.reply.exc
  {
    hide Count;
    NoCalls(n);
    var failed, halt, escaped;
    calls, failed, halt, escaped := ParkRobot(o, n, park);
    leaving := c.reply.exc;
    if escaped.Some? {
      leaving := escaped.value;
    } else if halt.Some? {
      leaving := halt.value;
    }
    Single(c);
    ParkCounts(o, n, park);
    Join([c], calls, n);
    calls := [c] + calls;
    assert calls[..0] == [];
  }

  lemma StageThen(o: Offers, n: nat, a: seq<Call>, b: seq<Call>, quiet: bool, escaped: Option<Exc>)
    requires Stage(o, n, a, quiet, None)
    requires Stage(o, n, b, quiet || InterruptedIn(a, n), escaped)
    ensures Stage(o, n, a + b, quiet, escaped)
  {
    hide Count;
    var whole := a + b;
    Join(a, b, n);
    OffKeyed(a, n);
    forall i | 0 <= i < |whole| && whole[i].kind == Rollout
      ensures Parks(whole[..i], n) == 0
    {
      if i < |a| {
        assert whole[..i] == a[..i];
      } else {
        assert whole[..i] == a + b[..i - |a|];
        CountConcat(a, b[..i - |a|], IsPark(n));
      }
    }
  }

  /** The sink hook at the start of a trial; a failure parks the platform, which home() moved. */
  method StartSinks(o: Offers, n: nat, sinkStart: Hook, park: Hook) returns (calls: seq<Call>, escaped: Option<Exc>)
    ensures Stage(o, n, calls, false, escaped)
    ensures Closed(o, n, [Call(SinkStart, n, sinkStart.Reply())], park, false, calls, escaped)
  {
    ClosingOne(o, n, Call(SinkStart, n, sinkStart.Reply()), park, false);
    calls, escaped := [Call(SinkStart, n, sinkStart.Reply())], None;
    if sinkStart.Raises? && !sinkStart.exc.Keyboard() {
      var leaving;
      calls, leaving := LeaveParked(o, n, calls[0], park);
      escaped := Some(leaving);
      return;
    }
    if sinkStart.Raises? {
      escaped := Some(sinkStart.exc);
    }
    StageOne(o, n, calls[0], false, escaped);
  }

  /** policy.on_trial_start, if offered; its ordinary failures, halts included, are contained. */
  method StartPolicy(o: Offers, n: nat, s: TrialScript) returns (calls: seq<Call>, started: bool, escaped: Option<Exc>)
    ensures Stage(o, n, calls, false, escaped)
    ensures escaped.None? ==>
              && !InterruptedIn(calls, n) && !Has(calls, IsBlemish()) && !Has(calls, IsStop())
              && Count(calls, IsDone()) == 0 && Count(calls, IsFailure()) == (if started then 0 else 1)
    ensures started <==> Started(o, s)
    ensures Closed(o, n, StartPlan(o, n, s), s.park, false, calls, escaped)
    ensures started ==> escaped.None?
    ensures escaped.None? ==> forall status :: SceneAfter(status, calls) == if started then status else Status.Error
  {
    calls, started, escaped := [], true, None;
    ClosedNothing(o, n, s.park, false);
    if o.policyStart {
      calls := [Call(PolicyStart, n, s.policyStart.Reply())];
      OneCall(calls[0]);
      ClosingOne(o, n, calls[0], s.park, false);
      Single(calls[0]);
      if s.policyStart.Raises? {
        started := false;
        if s.policyStart.exc.Keyboard() {
          escaped := Some(s.policyStart.exc);
        }
      }
      StageOne(o, n, calls[0], false, escaped);
    }
  }

  /** The record a trial leaves to be logged, before grading. */
  function TrialRecord(o: Offers, s: TrialScript): Option<Record> {
    if !Started(o, s) then Some(s.startRecord.(status := Status.Error))
    else match s.rollout
      case Finished(r) => Some(r.(status := Success))
      case CancelledBy(_, r) => Some(r.(status := Cancelled))
      case Faulted(_, None) => None
      case Faulted(_, Some(r)) => Some(r.(status := Status.Error))
      case PolicyFailed(_, partial) => Some(partial.GetOr(s.startRecord).(status := Status.Error))
      case _ => None
  }

  /** The record as it is logged: a successful one as the grading hook left it. */
  function LoggedRecord(o: Offers, s: TrialScript): Option<Record> {
    match TrialRecord(o, s)
    case None => None
    case Some(r) => Some(if r.status == Success then Graded(o, s, r) else r)
  }

  /** The record as the policy's end hook left it. */
  function EndedRecord(o: Offers, s: TrialScript, record: Record): Record {
    if o.policyEnd && Started(o, s) then s.onEnd(record) else record
  }

  predicate IsSuccessful(record: Option<Record>) {
    record.Some? && record.value.status == Success
  }

  /** The ledger between trials of a run that goes on. */
  predicate Resting(l: Ledger) {
    !l.halted && l.cancelled.None? && l.halt.None? && l.status != Cancelled
  }

  /** How a stage that did not leave the run shows in the ledger. */
  ghost predicate Booked(n: nat, calls: seq<Call>, l: Ledger, l': Ledger) {
    && (l'.cancelled.Some? <==> InterruptedIn(calls, n))
    && (l'.cancelled.Some? ==> RaisedIn(calls, l'.cancelled.value) && l'.cancelled.value.Cancel? && l'.halted)
    && l'.errorCount == l.errorCount + Count(calls, IsFailure())
    && (l'.status == Success <==> l.status == Success && !Has(calls, IsBlemish()))
    && (l'.status == Cancelled <==> l'.cancelled.Some?)
    && (l'.halted ==> l'.status != Success)
    && (!l'.halted ==> !Has(calls, IsStop()))
    && l'.halt.None?
    && l'.scene == SceneAfter(l.scene, calls) && (l'.halted && l'.cancelled.None? ==> l'.scene == Status.Error)
    && (l'.halted <==> AnyFinal(calls)) && FirstFaulty(calls).None?
  }

  /** The rollout call and the handlers around it; `record` is what the trial left to be logged. */
  method Roll(o: Offers, n: nat, s: TrialScript, l: Ledger)
    returns (calls: seq<Call>, l': Ledger, record: Option<Record>, escaped: Option<Exc>)
    requires Resting(l) && Started(o, s)
    ensures Stage(o, n, calls, false, escaped) && Closed(o, n, RollPlan(n, s), s.park, false, calls, escaped)
    ensures escaped.None? ==> Booked(n, calls, l, l') && Count(calls, IsDone()) == (if IsSuccessful(record) then 1 else 0)
    ensures l' == l.(status := l'.status, scene := l'.scene, errorCount := l'.errorCount, halted := l'.halted,
                     cancelled := l'.cancelled)
    ensures record == TrialRecord(o, s)
    ensures escaped.None? && !l'.halted ==> record.Some?
    ensures IsSuccessful(record) ==> !l'.halted && l'.cancelled.None?
  {
    var rolled := Call(Rollout, n, s.rollout.Reply());
    calls, l', record, escaped := [rolled], l, None, None;
    Single(rolled);
    OneCall(rolled);
    ClosingOne(o, n, rolled, s.park, false);
    match s.rollout {
      case Finished(r) => record := Some(r.(status := Success));
      case CancelledBy(id, r) =>
        l' := l.(status := Cancelled, scene := Cancelled, halted := true, cancelled := Some(Cancel(id)));
        record := Some(r.(status := Cancelled));
      case Faulted(_, partial) =>
        l' := l.(status := Status.Error, scene := Status.Error, halted := true);
        record := if partial.Some? then Some(partial.value.(status := Status.Error)) else None;
      case PolicyFailed(_, partial) =>
        l' := l.(scene := Status.Error, errorCount := l.errorCount + 1);
        record := Some(partial.GetOr(s.startRecord).(status := Status.Error));
      case Broke(id) =>
        var leaving;
        calls, leaving := LeaveParked(o, n, rolled, s.park);
        escaped := Some(leaving);
        return;
      case Interrupted(id) =>
        escaped := Some(Interrupt(id));
    }
    StageOne(o, n, rolled, false, escaped);
  }

  /** From the sink's start hook to the end of the rollout. */
  method RunPolicy(c: Config, n: nat, s: TrialScript, l: Ledger)
    returns (calls: seq<Call>, l': Ledger, record: Option<Record>, started: bool, escaped: Option<Exc>)
    requires Resting(l)
    ensures Stage(c.offers, n, calls, false, escaped)
    ensures Closed(c.offers, n, RunPlan(c.offers, n, s), s.park, false, calls, escaped)
    ensures escaped.None? ==>
              && Booked(n, calls, l, l') && record == TrialRecord(c.offers, s)
              && Count(calls, IsDone()) == (if IsSuccessful(record) then 1 else 0)
              && (started <==> Started(c.offers, s))
              && (!l'.halted ==> record.Some?) && (IsSuccessful(record) ==> l'.cancelled.None?)
    ensures l' == l.(status := l'.status, scene := l'.scene, errorCount := l'.errorCount, halted := l'.halted,
                     cancelled := l'.cancelled)
  {
    hide Count, Closed, SceneAfter, Stage, AnyFinal, AnyDeadly, FirstFaulty, RollPlan;
    var o := c.offers;
    l', record, started := l, None, true;
    ghost var rest := if Started(o, s) then RollPlan(n, s) else [];
    calls, escaped := StartSinks(o, n, s.sinkStart, s.park);
    if escaped.Some? {
      ClosedEarly(o, n, SinkPlan(n, s), StartPlan(o, n, s) + rest, s.park, false, calls, escaped);
      return;
    }
    SinksOpen(o, n, s, calls);
    Single(calls[0]);
    var more;
    more, started, escaped := StartPolicy(o, n, s);
    StageThen(o, n, calls, more, false, escaped);
    Join(calls, more, n);
    if escaped.Some? {
      ClosedEarly(o, n, StartPlan(o, n, s), rest, s.park, false, more, escaped);
      ClosedThen(o, n, SinkPlan(n, s), StartPlan(o, n, s) + rest, s.park, false, calls, more, escaped);
      calls := calls + more;
      return;
    }
    StartOpens(o, n, s, more);
    if !started {
      ConcatEmpty(StartPlan(o, n, s));
      ClosedThen(o, n, SinkPlan(n, s), StartPlan(o, n, s), s.park, false, calls, more, escaped);
      record := Some(s.startRecord.(status := Status.Error));
      l' := l.(scene := Status.Error, errorCount := l.errorCount + 1);
      RunDecides(calls, more, l.scene);
      calls := calls + more;
      return;
    }
    ghost var first := calls;
    var roll;
    roll, l', record, escaped := Roll(o, n, s, l);
    ClosedThen(o, n, StartPlan(o, n, s), RollPlan(n, s), s.park, false, more, roll, escaped);
    ClosedThen(o, n, SinkPlan(n, s), StartPlan(o, n, s) + RollPlan(n, s), s.park, false, calls, more + roll, escaped);
    ConcatAssociates(calls, more, roll);
    calls := calls + more;
    StageThen(o, n, calls, roll, false, escaped);
    Join(calls, roll, n);
    RunDecides(first, more, l.scene);
    RunDecides(calls, roll, l.scene);
    calls := calls + roll;
  }

  lemma SinksOpen(o: Offers, n: nat, s: TrialScript, calls: seq<Call>)
    requires Closed(o, n, SinkPlan(n, s), s.park, false, calls, None)
    ensures calls == SinkPlan(n, s) && s.sinkStart.Returns? && !AnyKeyed(calls) && !AnyFinal(calls)
    ensures FirstFaulty(calls).None? && forall status :: SceneAfter(status, calls) == status
  {
    ClosingOne(o, n, Call(SinkStart, n, s.sinkStart.Reply()), s.park, false);
    OneCall(Call(SinkStart, n, s.sinkStart.Reply()));
  }

  lemma StartOpens(o: Offers, n: nat, s: TrialScript, calls: seq<Call>)
    requires Closed(o, n, StartPlan(o, n, s), s.park, false, calls, None)
    ensures calls == StartPlan(o, n, s) && !AnyKeyed(calls) && !AnyFinal(calls) && FirstFaulty(calls).None?
  {
    NothingDecided();
    ClosedNothing(o, n, s.park, false);
    if o.policyStart {
      ClosingOne(o, n, Call(PolicyStart, n, s.policyStart.Reply()), s.park, false);
      OneCall(Call(PolicyStart, n, s.policyStart.Reply()));
    }
  }

  lemma RunDecides(a: seq<Call>, b: seq<Call>, status: Status)
    ensures SceneAfter(status, a + b) == SceneAfter(SceneAfter(status, a), b)
    ensures AnyFinal(a + b) <==> AnyFinal(a) || AnyFinal(b)
    ensures AnyKeyed(a + b) <==> AnyKeyed(a) || AnyKeyed(b)
    ensures FirstFaulty(a + b) == if FirstFaulty(a).Some? then FirstFaulty(a) else FirstFaulty(b)
  {
    SceneConcat(status, a, b);
    CutConcat(a, b);
  }

  /** observe_parked(), if offered; only its halts leave the run. */
  method ObserveParked(o: Offers, n: nat, observe: Hook, park: Hook) returns (calls: seq<Call>, escaped: Option<Exc>)
    ensures Stage(o, n, calls, false, escaped)
    ensures Closed(o, n, if o.observe then [Call(Observe, n, observe.Reply())] else [], park, false, calls, escaped)
    ensures escaped.None? ==> Harmless(n, calls)
  {
    calls, escaped := [], None;
    ClosedNothing(o, n, park, false);
    if !o.observe {
      NothingDecided();
      return;
    }
    calls := [Call(Observe, n, observe.Reply())];
    Single(calls[0]);
    OneCall(calls[0]);
    ClosingOne(o, n, calls[0], park, false);
    if observe.Raises? && observe.exc.Halt? {
      var leaving;
      calls, leaving := LeaveParked(o, n, calls[0], park);
      escaped := Some(leaving);
      return;
    }
    if observe.Raises? && observe.exc.Keyboard() {
      escaped := Some(observe.exc);
    }
    StageOne(o, n, calls[0], false, escaped);
  }

  /** Calls that leave nothing to book but, possibly, a blemish. */
  ghost predicate Unbooked(n: nat, calls: seq<Call>) {
    && !InterruptedIn(calls, n) && !Has(calls, IsStop())
    && Count(calls, IsFailure()) == Count(calls, IsDone()) == 0
    && !AnyFinal(calls) && !AnyKeyed(calls) && FirstFaulty(calls).None?
  }

  ghost predicate Harmless(n: nat, calls: seq<Call>) {
    Unbooked(n, calls) && !Has(calls, IsBlemish()) && forall status :: SceneAfter(status, calls) == status
  }

  lemma UnbookedThen(n: nat, a: seq<Call>, b: seq<Call>)
    requires Unbooked(n, a) && Unbooked(n, b)
    ensures Unbooked(n, a + b)
    ensures Harmless(n, a) && Harmless(n, b) ==> Harmless(n, a + b)
  {
    hide Count;
    Join(a, b, n);
    CutConcat(a, b);
    forall status
      ensures SceneAfter(status, a + b) == SceneAfter(SceneAfter(status, a), b)
    {
      SceneConcat(status, a, b);
    }
  }

  /** The before_scoring hook; whatever it raises leaves the run. */
  method AskGrader(o: Offers, n: nat, grade: GradeReply, park: Hook) returns (calls: seq<Call>, escaped: Option<Exc>)
    ensures Stage(o, n, calls, false, escaped)
    ensures
      Closed(o, n, [Call(Grade, n, if grade.Graded? then Passed else Raised(grade.exc))], park, false, calls, escaped)
    ensures escaped.None? <==> grade.Graded?
    ensures escaped.None? ==> Harmless(n, calls)
  {
    escaped := None;
    calls := [Call(Grade, n, if grade.Graded? then Passed else Raised(grade.exc))];
    Single(calls[0]);
    OneCall(calls[0]);
    ClosingOne(o, n, calls[0], park, false);
    if grade.GradeRaises? && !grade.exc.Keyboard() {
      var leaving;
      calls, leaving := LeaveParked(o, n, calls[0], park);
      escaped := Some(leaving);
      return;
    }
    if grade.GradeRaises? {
      escaped := Some(grade.exc);
    }
    StageOne(o, n, calls[0], false, escaped);
  }

  /** observe_parked and the grading hook, for a successful trial when a grader was given. */
  method GradeTrial(o: Offers, n: nat, s: TrialScript, record: Record, l: Ledger)
    returns (calls: seq<Call>, record': Record, l': Ledger, escaped: Option<Exc>)
    requires record.status == Success
    ensures Stage(o, n, calls, false, escaped)
    ensures Closed(o, n, GradePlan(o, n, s, record), s.park, false, calls, escaped)
    ensures escaped.None? ==> Harmless(n, calls) && record' == Graded(o, s, record)
    ensures l' == l.(graded := l'.graded, ungraded := l'.ungraded)
    ensures escaped.None? ==>
              && l'.graded == l.graded + (if o.grader then 1 else 0)
              && l'.ungraded == l.ungraded + (if UngradedRecord(o, record') then 1 else 0)
  {
    hide Count, Closed, SceneAfter, AnyFinal, AnyKeyed;
    NoCalls(n);
    ClosedNothing(o, n, s.park, false);
    HarmlessNothing(n);
    calls, record', l', escaped := [], record, l, None;
    if !o.grader {
      return;
    }
    ghost var ask := [Call(Grade, n, if s.grade.Graded? then Passed else Raised(s.grade.exc))];
    if record.judgement.None? && !record.adopted {
      calls, escaped := ObserveParked(o, n, s.observe, s.park);
      if escaped.Some? {
        ClosedEarly(o, n, ObservePlan(o, n, s, record), ask, s.park, false, calls, escaped);
        return;
      }
    }
    var more;
    more, escaped := AskGrader(o, n, s.grade, s.park);
    StageThen(o, n, calls, more, false, escaped);
    Join(calls, more, n);
    ClosedThen(o, n, ObservePlan(o, n, s, record), ask, s.park, false, calls, more, escaped);
    if s.grade.Graded? {
      UnbookedThen(n, calls, more);
      record' := record.(judgement := s.grade.judgement, source := s.grade.source, note := s.grade.note,
                         gradingError := s.grade.gradingError, judgedHint := s.grade.judgedHint);
      l' := l.(graded := l.graded + 1,
               ungraded := l.ungraded + if s.grade.gradingError && s.grade.judgement.None? then 1 else 0);
    }
    calls := calls + more;
  }

  lemma HarmlessNothing(n: nat)
    ensures Harmless(n, [])
  {
    NoCalls(n);
  }

  predicate UngradedRecord(o: Offers, record: Record) {
    o.grader && record.status == Success && record.gradingError && record.judgement.None?
  }

  /** One rubric of a trial: skipped when the verdict belongs to another rubric, else scored. */
  method ScoreOne(o: Offers, n: nat, r: Rubric, judged: Option<string>, reply: ScoreReply, park: Hook)
    returns (calls: seq<Call>, entry: Option<Option<real>>, escaped: Option<Exc>)
    ensures Stage(o, n, calls, false, escaped)
    ensures Closed(o, n, ScoreOnePlan(n, r, judged, reply), park, false, calls, escaped)
    ensures escaped.None? ==> Unbooked(n, calls) && (entry.None? <==> Has(calls, IsBlemish()))
    ensures
      escaped.None? ==> forall status :: SceneAfter(status, calls) == if entry.None? then Status.Error else status
    ensures entry == EpochEntry(r, judged, reply.Score())
  {
    calls, entry, escaped := [], EpochEntry(r, judged, reply.Score()), None;
    ClosedNothing(o, n, park, false);
    HarmlessNothing(n);
    if judged.Some? && r.name != judged.value && r.readsJudgement {
      return;
    }
    calls := [Call(Score, n, if reply.Value? then Passed else Raised(reply.exc))];
    Single(calls[0]);
    OneCall(calls[0]);
    ClosingOne(o, n, calls[0], park, false);
    if reply.ScoreRaises? && reply.exc.Halt? {
      var leaving;
      calls, leaving := LeaveParked(o, n, calls[0], park);
      escaped := Some(leaving);
      return;
    }
    if reply.ScoreRaises? && reply.exc.Keyboard() {
      escaped := Some(reply.exc);
    }
    StageOne(o, n, calls[0], false, escaped);
  }

  /** The epoch entries of the first `i` rubrics, and of no other name. */
  ghost predicate Scored(rubrics: seq<Rubric>, i: nat, judged: Option<string>, scores: string -> ScoreReply,
                         epoch: map<string, Option<real>>)
    requires i <= |rubrics|
  {
    && (forall j :: 0 <= j < i ==> EntryAt(rubrics[j], judged, scores, epoch))
    && (forall name :: name in epoch ==> exists j :: 0 <= j < i && rubrics[j].name == name)
  }

  ghost predicate EntryAt(r: Rubric, judged: Option<string>, scores: string -> ScoreReply,
                          epoch: map<string, Option<real>>) {
    var entry := EpochEntry(r, judged, scores(r.name).Score());
    (r.name in epoch <==> entry.Some?) && (entry.Some? ==> epoch[r.name] == entry.value)
  }

  lemma ScoredNext(rubrics: seq<Rubric>, i: nat, judged: Option<string>, scores: string -> ScoreReply,
                   epoch: map<string, Option<real>>)
    requires i < |rubrics| && UniqueNames(rubrics) && Scored(rubrics, i, judged, scores, epoch)
    ensures
      var entry := EpochEntry(rubrics[i], judged, scores(rubrics[i].name).Score());
      Scored(rubrics, i + 1, judged, scores,
             if entry.Some? then epoch[rubrics[i].name := entry.value] else epoch)
    ensures rubrics[i].name !in epoch
  {
    assert forall j :: 0 <= j < i ==> rubrics[j].name != rubrics[i].name;
    var entry := EpochEntry(rubrics[i], judged, scores(rubrics[i].name).Score());
    var next := if entry.Some? then epoch[rubrics[i].name := entry.value] else epoch;
    forall j | 0 <= j < i + 1
      ensures EntryAt(rubrics[j], judged, scores, next)
    {
      if j < i {
        assert EntryAt(rubrics[j], judged, scores, epoch);
      }
    }
    forall name | name in next
      ensures exists j :: 0 <= j < i + 1 && rubrics[j].name == name
    {
      if name in epoch {
        var j :| 0 <= j < i && rubrics[j].name == name;
      } else {
        assert rubrics[i].name == name;
      }
    }
  }

  /** The abstention counts after a trial whose epoch entries are `epoch`. */
  ghost predicate Tallied(before: map<string, nat>, epoch: map<string, Option<real>>, after: map<string, nat>) {
    forall name :: CountOf(after, name) == CountOf(before, name) + (if Abstains(epoch, name) then 1 else 0)
  }

  predicate Abstains(epoch: map<string, Option<real>>, name: string) {
    name in epoch && epoch[name].None?
  }

  function CountOf(counts: map<string, nat>, name: string): nat {
    if name in counts then counts[name] else 0
  }

  function Degrade(status: Status, blemished: bool): Status {
    if status == Success && blemished then Status.Error else status
  }

  /** Runs every scorer of the scene; a scorer failure degrades the run, a halt leaves it. */
  method ScoreTrial(o: Offers, n: nat, s: TrialScript, rubrics: seq<Rubric>, record: Record, l: Ledger)
    returns (calls: seq<Call>, epoch: map<string, Option<real>>, l': Ledger, escaped: Option<Exc>)
    requires UniqueNames(rubrics)
    ensures Stage(o, n, calls, false, escaped)
    ensures
      var judged := JudgedRubric(rubrics, record.judgement, record.judgedHint);
      Closed(o, n, ScorePlan(n, rubrics, judged, s.scores), s.park, false, calls, escaped)
    ensures escaped.None? ==>
              && Unbooked(n, calls) && l'.status == Degrade(l.status, Has(calls, IsBlemish()))
              && l'.scene == SceneAfter(l.scene, calls)
              && Scored(rubrics, |rubrics|, JudgedRubric(rubrics, record.judgement, record.judgedHint), s.scores, epoch)
    ensures l' == l.(status := l'.status, scene := l'.scene, abstentions := l'.abstentions)
    ensures Tallied(l.abstentions, epoch, l'.abstentions)
  {
    hide *;
    var judged := JudgedRubric(rubrics, record.judgement, record.judgedHint);
    calls, epoch, l', escaped := ScoreRubrics(o, n, rubrics, judged, s.scores, s.park, l);
  }

  method ScoreRubrics(o: Offers, n: nat, rubrics: seq<Rubric>, judged: Option<string>, scores: string -> ScoreReply,
                      park: Hook, l: Ledger)
    returns (calls: seq<Call>, epoch: map<string, Option<real>>, l': Ledger, escaped: Option<Exc>)
    requires UniqueNames(rubrics)
    ensures Stage(o, n, calls, false, escaped)
    ensures Closed(o, n, ScorePlan(n, rubrics, judged, scores), park, false, calls, escaped)
    ensures escaped.None? ==>
              && Unbooked(n, calls) && l'.status == Degrade(l.status, Has(calls, IsBlemish()))
              && l'.scene == SceneAfter(l.scene, calls) && Scored(rubrics, |rubrics|, judged, scores, epoch)
    ensures l' == l.(status := l'.status, scene := l'.scene, abstentions := l'.abstentions)
    ensures Tallied(l.abstentions, epoch, l'.abstentions)
  {
    hide Count, Closed, SceneAfter, AnyFinal, AnyKeyed, Stage;
    StageNothing(o, n, false);
    NoCalls(n);
    HarmlessNothing(n);
    ClosedNothing(o, n, park, false);
    calls, epoch, l', escaped := [], map[], l, None;
    assert rubrics[..0] == [];
    for i := 0 to |rubrics|
      invariant Stage(o, n, calls, false, None) && Unbooked(n, calls)
      invariant Closed(o, n, ScorePlan(n, rubrics[..i], judged, scores), park, false, calls, None)
      invariant l' == l.(status := Degrade(l.status, Has(calls, IsBlemish())), scene := SceneAfter(l.scene, calls),
                         abstentions := l'.abstentions)
      invariant Scored(rubrics, i, judged, scores, epoch)
      invariant Tallied(l.abstentions, epoch, l'.abstentions)
    {
      var more, entry, left := ScoreOne(o, n, rubrics[i], judged, scores(rubrics[i].name), park);
      ScoresGrow(o, n, rubrics, i, judged, scores, park, calls, more, left, l.scene);
      if left.Some? {
        calls, escaped := calls + more, left;
        return;
      }
      calls := calls + more;
      ScoredNext(rubrics, i, judged, scores, epoch);
      if entry.None? {
        l' := l'.(status := if l'.status == Success then Status.Error else l'.status, scene := Status.Error);
      } else {
        epoch := epoch[rubrics[i].name := entry.value];
        if entry.value.None? {
          l' := l'.(abstentions := l'.abstentions[rubrics[i].name := CountOf(l'.abstentions, rubrics[i].name) + 1]);
        }
      }
    }
    assert rubrics[..|rubrics|] == rubrics;
  }

  /** One more rubric's call. */
  lemma ScoresGrow(o: Offers, n: nat, rubrics: seq<Rubric>, i: nat, judged: Option<string>,
                   scores: string -> ScoreReply, park: Hook, calls: seq<Call>, more: seq<Call>, left: Option<Exc>,
                   status: Status)
    requires i < |rubrics| && Stage(o, n, calls, false, None) && Unbooked(n, calls)
    requires Closed(o, n, ScorePlan(n, rubrics[..i], judged, scores), park, false, calls, None)
    requires Stage(o, n, more, false, left) && (left.None? ==> Unbooked(n, more))
    requires Closed(o, n, ScoreOnePlan(n, rubrics[i], judged, scores(rubrics[i].name)), park, false, more, left)
    ensures Stage(o, n, calls + more, false, left)
    ensures left.Some? ==> Closed(o, n, ScorePlan(n, rubrics, judged, scores), park, false, calls + more, left)
    ensures
      left.None?
      ==>
        && Unbooked(n, calls + more)
        && Closed(o, n, ScorePlan(n, rubrics[..i + 1], judged, scores), park, false, calls + more, None)
        && (Has(calls + more, IsBlemish()) <==> Has(calls, IsBlemish()) || Has(more, IsBlemish()))
        && SceneAfter(status, calls + more) == SceneAfter(SceneAfter(status, calls), more)
  {
    hide Count, Closed, SceneAfter, AnyFinal, Stage, ScorePlan, ScoreOnePlan, FirstFaulty;
    StageThen(o, n, calls, more, false, left);
    Join(calls, more, n);
    ScorePlanNext(n, rubrics, i, judged, scores);
    ClosedThen(o, n, ScorePlan(n, rubrics[..i], judged, scores),
               ScoreOnePlan(n, rubrics[i], judged, scores(rubrics[i].name)), park, false, calls, more, left);
    if left.Some? {
      ScorePlanRest(o, n, rubrics, i + 1, judged, scores, park, calls + more, left);
    } else {
      UnbookedThen(n, calls, more);
      SceneConcat(status, calls, more);
    }
  }

  lemma ScorePlanNext(n: nat, rubrics: seq<Rubric>, i: nat, judged: Option<string>, scores: string -> ScoreReply)
    requires i < |rubrics|
    ensures
      ScorePlan(n, rubrics[..i + 1], judged, scores)
      == ScorePlan(n, rubrics[..i], judged, scores) + ScoreOnePlan(n, rubrics[i], judged, scores(rubrics[i].name))
  {
    assert rubrics[..i + 1][..i] == rubrics[..i];
  }

  /** Once a scorer's exception leaves, the scorers after it do not matter. */
  lemma {:induction false} ScorePlanRest(o: Offers, n: nat, rubrics: seq<Rubric>, i: nat, judged: Option<string>,
                                         scores: string -> ScoreReply, park: Hook, calls: seq<Call>,
                                         escaped: Option<Exc>)
    requires i <= |rubrics| && escaped.Some?
    requires Closed(o, n, ScorePlan(n, rubrics[..i], judged, scores), park, false, calls, escaped)
    ensures Closed(o, n, ScorePlan(n, rubrics, judged, scores), park, false, calls, escaped)
    decreases |rubrics| - i
  {
    hide Closed, ScorePlan;
    if i < |rubrics| {
      ScorePlanNext(n, rubrics, i, judged, scores);
      ClosedEarly(o, n, ScorePlan(n, rubrics[..i], judged, scores),
                  ScoreOnePlan(n, rubrics[i], judged, scores(rubrics[i].name)), park, false, calls, escaped);
      ScorePlanRest(o, n, rubrics, i + 1, judged, scores, park, calls, escaped);
    } else {
      assert rubrics[..i] == rubrics;
    }
  }

  // ---------------------------------------------------------------- recording a trial

  /** The columns filled at the instant of scoring. */
  function PushScored(c: Columns, r: Row): Columns {
    c.(epochs := c.epochs + [r.epoch], judgements := c.judgements + [r.verdict], sources := c.sources + [r.source],
       notes := c.notes + [r.note])
  }

  /** The columns filled after the policy's end hook. */
  function PushRest(c: Columns, r: Record): Columns {
    c.(ids := c.ids + [r.id], dirs := c.dirs + [r.dir], events := c.events + [r.events],
       metadatas := c.metadatas + [r.metadata], reasons := c.reasons + [r.reason], details := c.details + [r.detail],
       messages := c.messages + [r.messages], transcripts := c.transcripts + [r.transcript])
  }

  /** The columns are parallel: entry k of every one of them is trial k's. */
  ghost predicate Aligned(c: Columns, rows: seq<Row>) {
    && |c.epochs| == |c.judgements| == |c.sources| == |c.notes| == |rows|
    && |c.metadatas| == |c.reasons| == |c.details| == |c.messages| == |rows|
    && |c.transcripts| == |c.ids| == |c.dirs| == |c.events| == |rows|
    && forall k :: 0 <= k < |rows| ==> AlignedAt(c, rows, k)
  }

  ghost predicate AlignedAt(c: Columns, rows: seq<Row>, k: nat)
    requires k < |rows|
    requires |c.epochs| == |c.judgements| == |c.sources| == |c.notes| == |rows|
    requires |c.metadatas| == |c.reasons| == |c.details| == |c.messages| == |rows|
    requires |c.transcripts| == |c.ids| == |c.dirs| == |c.events| == |rows|
  {
    var r := rows[k].last;
    && c.epochs[k] == rows[k].epoch && c.judgements[k] == rows[k].verdict
    && c.sources[k] == rows[k].source && c.notes[k] == rows[k].note
    && c.metadatas[k] == r.metadata && c.reasons[k] == r.reason && c.details[k] == r.detail
    && c.messages[k] == r.messages && c.transcripts[k] == r.transcript
    && c.ids[k] == r.id && c.dirs[k] == r.dir && c.events[k] == r.events
  }

  lemma AlignedPush(c: Columns, rows: seq<Row>, r: Row)
    requires Aligned(c, rows)
    ensures Aligned(PushRest(PushScored(c, r), r.last), rows + [r])
  {
    var c' := PushRest(PushScored(c, r), r.last);
    var rows' := rows + [r];
    forall k | 0 <= k < |rows'|
      ensures AlignedAt(c', rows', k)
    {
      if k < |rows| {
        assert AlignedAt(c, rows, k);
      }
    }
  }

  /** bus.on_trial_end; a failure parks the platform first, unless the run was cancelled. */
  method EndSinks(o: Offers, n: nat, sinkEnd: Hook, park: Hook, cancelled: bool)
    returns (calls: seq<Call>, escaped: Option<Exc>)
    ensures Stage(o, n, calls, cancelled, escaped)
    ensures Closed(o, n, [Call(SinkEnd, n, sinkEnd.Reply())], park, cancelled, calls, escaped)
    ensures escaped.None? ==> Harmless(n, calls)
  {
    calls, escaped := [Call(SinkEnd, n, sinkEnd.Reply())], None;
    Single(calls[0]);
    OneCall(calls[0]);
    ClosingOne(o, n, calls[0], park, cancelled);
    if sinkEnd.Raises? {
      if !sinkEnd.exc.Keyboard() && !cancelled {
        var leaving;
        calls, leaving := LeaveParked(o, n, calls[0], park);
        escaped := Some(leaving);
        return;
      }
      escaped := Some(sinkEnd.exc);
    }
    StageOne(o, n, calls[0], cancelled, escaped);
  }

  /** policy.on_trial_end, if offered; its ordinary failures degrade the run. */
  method EndPolicy(o: Offers, n: nat, hook: Hook, ghost park: Hook, cancelled: bool)
    returns (calls: seq<Call>, escaped: Option<Exc>)
    ensures Stage(o, n, calls, cancelled, escaped)
    ensures
      Closed(o, n, if o.policyEnd then [Call(PolicyEnd, n, hook.Reply())] else [], park, cancelled, calls, escaped)
    ensures escaped.None? ==> Unbooked(n, calls) && (Has(calls, IsBlemish()) <==> o.policyEnd && hook.Raises?)
    ensures
      escaped.None?
      ==>
        forall status :: SceneAfter(status, calls) == if o.policyEnd && hook.Raises? then Status.Error else status
  {
    calls, escaped := [], None;
    ClosedNothing(o, n, park, cancelled);
    HarmlessNothing(n);
    if o.policyEnd {
      calls := [Call(PolicyEnd, n, hook.Reply())];
      Single(calls[0]);
      OneCall(calls[0]);
      ClosingOne(o, n, calls[0], park, cancelled);
      if hook.Raises? && hook.exc.Keyboard() {
        escaped := Some(hook.exc);
      }
      StageOne(o, n, calls[0], cancelled, escaped);
    }
  }

  /** The policy's end hook, the columns filled after it, and the sinks' end hook. */
  method EndHooks(o: Offers, n: nat, s: TrialScript, record: Record, started: bool, l: Ledger, columns: Columns)
    returns (calls: seq<Call>, last: Record, l': Ledger, columns': Columns, escaped: Option<Exc>)
    requires started <==> Started(o, s)
    ensures Stage(o, n, calls, l.cancelled.Some?, escaped)
    ensures Closed(o, n, EndPlan(o, n, s), s.park, l.cancelled.Some?, calls, escaped)
    ensures escaped.None? ==>
              && Unbooked(n, calls) && last == EndedRecord(o, s, record) && columns' == PushRest(columns, last)
              && l'.status == Degrade(l.status, Has(calls, IsBlemish())) && l'.scene == SceneAfter(l.scene, calls)
    ensures l' == l.(status := l'.status, scene := l'.scene)
  {
    hide Count, Closed, SceneAfter, AnyFinal, AnyKeyed;
    NoCalls(n);
    HarmlessNothing(n);
    ClosedNothing(o, n, s.park, l.cancelled.Some?);
    calls, last, l', columns', escaped := [], record, l, columns, None;
    ghost var end := [Call(SinkEnd, n, s.sinkEnd.Reply())];
    ghost var first := if o.policyEnd && started then [Call(PolicyEnd, n, s.policyEnd.Reply())] else [];
    if started {
      calls, escaped := EndPolicy(o, n, s.policyEnd, s.park, l.cancelled.Some?);
      if escaped.Some? {
        ClosedEarly(o, n, first, end, s.park, l.cancelled.Some?, calls, escaped);
        return;
      }
      if o.policyEnd {
        last := s.onEnd(record);
      }
      if o.policyEnd && s.policyEnd.Raises? {
        l' := l'.(status := if l'.status == Success then Status.Error else l'.status, scene := Status.Error);
      }
    }
    columns' := PushRest(columns', last);
    var more;
    more, escaped := EndSinks(o, n, s.sinkEnd, s.park, l.cancelled.Some?);
    StageThen(o, n, calls, more, l.cancelled.Some?, escaped);
    Join(calls, more, n);
    ClosedThen(o, n, first, end, s.park, l.cancelled.Some?, calls, more, escaped);
    SceneConcat(l.scene, calls, more);
    if escaped.None? {
      UnbookedThen(n, calls, more);
    }
    calls := calls + more;
  }

  /** The counts after a trial recorded as `row`. */
  ghost predicate Accounted(o: Offers, row: Row, l: Ledger, l': Ledger) {
    && l'.erroredTrials == l.erroredTrials + (if row.record.status == Status.Error then 1 else 0)
    && l'.ungraded == l.ungraded + (if UngradedRecord(o, row.record) then 1 else 0)
    && Tallied(l.abstentions, row.epoch, l'.abstentions)
  }

  /** What a row may hold: it records its own trial; an unsuccessful trial is never scored or judged;
      a successful one holds the graded verdict and one entry per rubric whose scorer did not raise. */
  ghost predicate CapturedRow(o: Offers, rubrics: seq<Rubric>, s: TrialScript, row: Row) {
    && LoggedRecord(o, s) == Some(row.record) && row.last == EndedRecord(o, s, row.record)
    && if row.record.status != Success then
         row.epoch == map[] && row.verdict.None? && row.source.None? && row.note.None?
       else
         && row.verdict == row.record.judgement && row.note == row.record.note
         && row.source == (if row.verdict.None? then None else row.record.source)
         && Scored(rubrics, |rubrics|, JudgedRubric(rubrics, row.record.judgement, row.record.judgedHint), s.scores,
                   row.epoch)
  }

  /** Grading and scoring of a recorded trial; only a successful one is scored. */
  method ScoreRecord(o: Offers, n: nat, s: TrialScript, rubrics: seq<Rubric>, record: Record, l: Ledger)
    returns (calls: seq<Call>, row: Row, l': Ledger, escaped: Option<Exc>)
    requires UniqueNames(rubrics)
    requires l.cancelled.Some? ==> record.status != Success
    requires TrialRecord(o, s) == Some(record)
    ensures Stage(o, n, calls, l.cancelled.Some?, escaped)
    ensures Closed(o, n, RecordPlan(o, n, s, rubrics, record), s.park, l.cancelled.Some?, calls, escaped)
    ensures escaped.None? ==>
              && Unbooked(n, calls) && l'.status == Degrade(l.status, Has(calls, IsBlemish()))
              && l'.scene == SceneAfter(l.scene, calls)
              && Accounted(o, row, l, l')
              && CapturedRow(o, rubrics, s, row.(last := EndedRecord(o, s, row.record)))
    ensures l' == l.(status := l'.status, scene := l'.scene, graded := l'.graded, ungraded := l'.ungraded,
                     abstentions := l'.abstentions, erroredTrials := l'.erroredTrials)
    ensures row.record.status == record.status
    ensures record.status != Success ==> escaped.None?
  {
    hide Count, Closed, SceneAfter, AnyFinal, AnyKeyed, Stage, Scored, ScorePlan, GradePlan, JudgedRubric, FirstFaulty;
    StageNothing(o, n, l.cancelled.Some?);
    NoCalls(n);
    HarmlessNothing(n);
    ClosedNothing(o, n, s.park, l.cancelled.Some?);
    calls, row, l', escaped := [], Row(record, record, map[], None, None, None), l, None;
    if record.status != Success {
      if record.status == Status.Error {
        l' := l.(erroredTrials := l.erroredTrials + 1);
      }
      return;
    }
    var record';
    ghost var graded := Graded(o, s, record);
    ghost var scoring := ScorePlan(n, rubrics, JudgedRubric(rubrics, graded.judgement, graded.judgedHint), s.scores);
    calls, record', l', escaped := GradeTrial(o, n, s, record, l);
    if escaped.Some? {
      ClosedEarly(o, n, GradePlan(o, n, s, record), scoring, s.park, false, calls, escaped);
      return;
    }
    var more, epoch;
    more, epoch, l', escaped := ScoreTrial(o, n, s, rubrics, record', l');
    StageThen(o, n, calls, more, false, escaped);
    Join(calls, more, n);
    ClosedThen(o, n, GradePlan(o, n, s, record), scoring, s.park, false, calls, more, escaped);
    SceneConcat(l.scene, calls, more);
    if escaped.None? {
      UnbookedThen(n, calls, more);
    }
    calls := calls + more;
    row := Row(record', record', epoch, record'.judgement,
               if record'.judgement.None? then None else record'.source, record'.note);
  }

  /** Everything done with a trial's record before the trial is parked. */
  method Capture(o: Offers, n: nat, s: TrialScript, rubrics: seq<Rubric>, record: Record, started: bool, l: Ledger,
                 columns: Columns)
    returns (calls: seq<Call>, row: Row, l': Ledger, columns': Columns, escaped: Option<Exc>)
    requires UniqueNames(rubrics) && (started <==> Started(o, s))
    requires l.cancelled.Some? ==> record.status != Success
    requires TrialRecord(o, s) == Some(record)
    ensures Stage(o, n, calls, l.cancelled.Some?, escaped)
    ensures Closed(o, n, CapturePlan(o, n, s, rubrics), s.park, l.cancelled.Some?, calls, escaped)
    ensures escaped.None? ==>
              && Unbooked(n, calls) && l'.status == Degrade(l.status, Has(calls, IsBlemish()))
              && l'.scene == SceneAfter(l.scene, calls)
              && l'.totalTrials == l.totalTrials + 1
              && Accounted(o, row, l, l') && CapturedRow(o, rubrics, s, row)
              && columns' == PushRest(PushScored(columns, row), row.last)
    ensures l'.errorCount == l.errorCount && l'.halted == l.halted && l'.cancelled == l.cancelled && l'.halt == l.halt
    ensures row.record.status == record.status
  {
    hide Count, Closed, SceneAfter, AnyFinal, AnyKeyed, Stage;
    columns' := columns;
    calls, row, l', escaped := ScoreRecord(o, n, s, rubrics, record, l.(totalTrials := l.totalTrials + 1));
    if escaped.Some? {
      ClosedEarly(o, n, RecordPlan(o, n, s, rubrics, record), EndPlan(o, n, s), s.park, l.cancelled.Some?, calls, escaped);
      return;
    }
    columns' := PushScored(columns, row);
    var more, last;
    more, last, l', columns', escaped := EndHooks(o, n, s, row.record, started, l', columns');
    row := row.(last := last);
    StageThen(o, n, calls, more, l.cancelled.Some?, escaped);
    Join(calls, more, n);
    ClosedThen(o, n, RecordPlan(o, n, s, rubrics, record), EndPlan(o, n, s), s.park, l.cancelled.Some?, calls, more, escaped);
    SceneConcat(l.scene, calls, more);
    if escaped.None? {
      UnbookedThen(n, calls, more);
    }
    calls := calls + more;
  }

  // ---------------------------------------------------------------- one trial

  /** Whether the PolicyError-class failures so far fail the run; `trials` is the planned total. */
  predicate ShouldFail(failOn: FailOn, errors: nat, trials: nat) {
    match failOn
    case Flag(on) => on && errors > 0
    case Threshold(limit) =>
      if limit == 0.0 || errors == 0 then false
      else if 0.0 < limit < 1.0 then trials > 0 && errors as real / trials as real >= limit
      else errors as real >= limit
  }

  function IsErrored(): Row -> bool {
    (r: Row) => r.record.status == Status.Error
  }

  function IsSuccess(): Row -> bool {
    (r: Row) => r.record.status == Success
  }

  function IsUngraded(o: Offers): Row -> bool {
    (r: Row) => UngradedRecord(o, r.record)
  }

  function AbstainsOn(name: string): Row -> bool {
    (r: Row) => Abstains(r.epoch, name)
  }

  /** The ledger's counters are the counts over the trials recorded so far. */
  ghost predicate Accounts(o: Offers, rows: seq<Row>, l: Ledger) {
    && l.totalTrials == |rows|
    && l.erroredTrials == Count(rows, IsErrored())
    && l.ungraded == Count(rows, IsUngraded(o))
    && forall name :: CountOf(l.abstentions, name) == Count(rows, AbstainsOn(name))
  }

  lemma AccountsPush(o: Offers, rows: seq<Row>, row: Row, l: Ledger, l': Ledger)
    requires Accounts(o, rows, l) && Accounted(o, row, l, l') && l'.totalTrials == l.totalTrials + 1
    ensures Accounts(o, rows + [row], l')
  {
    CountPush(rows, row, IsErrored());
    CountPush(rows, row, IsUngraded(o));
    forall name
      ensures CountOf(l'.abstentions, name) == Count(rows + [row], AbstainsOn(name))
    {
      CountPush(rows, row, AbstainsOn(name));
    }
  }

  lemma AccountsKept(o: Offers, rows: seq<Row>, l: Ledger, l': Ledger)
    requires Accounts(o, rows, l)
    requires l' == l.(status := l'.status, scene := l'.scene, halted := l'.halted, halt := l'.halt)
    ensures Accounts(o, rows, l')
  {
  }

  lemma RowPushed(o: Offers, prior: seq<Row>, rows: seq<Row>, row: Row, columns: Columns, l: Ledger, l': Ledger)
    requires Accounts(o, prior + rows, l) && Aligned(columns, rows)
    requires Accounted(o, row, l, l') && l'.totalTrials == l.totalTrials + 1
    ensures Accounts(o, prior + (rows + [row]), l')
    ensures Aligned(PushRest(PushScored(columns, row), row.last), rows + [row])
    ensures Count(prior + (rows + [row]), IsSuccess()) == Count(prior + rows, IsSuccess()) + (if IsSuccess()(row) then 1 else 0)
    ensures (rows + [row])[|rows|] == row && (rows + [row])[..|rows|] == rows
  {
    CountPush(prior + rows, row, IsSuccess());
    AccountsPush(o, prior + rows, row, l, l');
    assert prior + rows + [row] == prior + (rows + [row]);
    AlignedPush(columns, rows, row);
  }

  /** One more trial was recorded. */
  ghost predicate Recorded(o: Offers, rubrics: seq<Rubric>, s: TrialScript, rows: seq<Row>, rows': seq<Row>) {
    |rows'| == |rows| + 1 && rows'[..|rows|] == rows && CapturedRow(o, rubrics, s, rows'[|rows|])
  }

  lemma BookedThen(n: nat, a: seq<Call>, b: seq<Call>, l: Ledger, l1: Ledger, l2: Ledger)
    requires Booked(n, a, l, l1) && Unbooked(n, b)
    requires l2.status == Degrade(l1.status, Has(b, IsBlemish()))
    requires l2.errorCount == l1.errorCount && l2.halted == l1.halted && l2.cancelled == l1.cancelled && l2.halt == l1.halt
    requires l2.scene == SceneAfter(l1.scene, b)
    ensures Booked(n, a + b, l, l2)
    ensures Count(a + b, IsDone()) == Count(a, IsDone())
  {
    hide Count, SceneAfter, AnyFinal, AnyKeyed;
    Join(a, b, n);
    RunDecides(a, b, l.scene);
    ErrorStays(b);
  }

  /** Only a cancel overwrites a scene's error. */
  lemma {:induction false} ErrorStays(calls: seq<Call>)
    requires !AnyKeyed(calls)
    ensures SceneAfter(Status.Error, calls) == Status.Error
  {
    if calls != [] {
      assert calls[|calls| - 1] in calls && !Keyed(calls[|calls| - 1]);
      ErrorStays(calls[..|calls| - 1]);
    }
  }

  /** In one trial's calls an interrupt is a keyboard interrupt. */
  lemma KeyedHere(calls: seq<Call>, n: nat)
    requires forall c :: c in calls ==> c.trial == n
    ensures InterruptedIn(calls, n) <==> AnyKeyed(calls)
  {
    HasMeans(calls, KeyedIn(n));
  }

  /** The body of a trial, from the sink's start hook to its end hook. */
  method TrialBody(c: Config, n: nat, s: TrialScript, rubrics: seq<Rubric>, l: Ledger, columns: Columns,
                   ghost prior: seq<Row>, rows: seq<Row>)
    returns (calls: seq<Call>, l': Ledger, columns': Columns, rows': seq<Row>, escaped: Option<Exc>)
    requires UniqueNames(rubrics) && Resting(l)
    requires Accounts(c.offers, prior + rows, l) && Aligned(columns, rows)
    ensures Stage(c.offers, n, calls, false, escaped)
    ensures Closed(c.offers, n, BodyPlan(c.offers, n, s, rubrics), s.park, false, calls, escaped)
    ensures escaped.None? ==>
              && Booked(n, calls, l, l')
              && Accounts(c.offers, prior + rows', l') && Aligned(columns', rows')
              && (if TrialRecord(c.offers, s).Some? then Recorded(c.offers, rubrics, s, rows, rows') else rows' == rows)
              && (!l'.halted ==> TrialRecord(c.offers, s).Some?)
              && Count(prior + rows', IsSuccess()) == Count(prior + rows, IsSuccess()) + Count(calls, IsDone())
  {
    hide Count, Closed, SceneAfter, AnyFinal, AnyKeyed;
    columns', rows' := columns, rows;
    var record, started;
    calls, l', record, started, escaped := RunPolicy(c, n, s, l);
    if escaped.Some? {
      ClosedEarly(c.offers, n, RunPlan(c.offers, n, s), CapturePlan(c.offers, n, s, rubrics), s.park, false, calls, escaped);
      return;
    }
    if record.None? {
      ConcatEmpty(RunPlan(c.offers, n, s));
      return;
    }
    var more, row, before := [], Row(record.value, record.value, map[], None, None, None), l';
    KeyedHere(calls, n);
    more, row, l', columns', escaped := Capture(c.offers, n, s, rubrics, record.value, started, l', columns);
    StageThen(c.offers, n, calls, more, false, escaped);
    ClosedThen(c.offers, n, RunPlan(c.offers, n, s), CapturePlan(c.offers, n, s, rubrics), s.park, false, calls, more,
               escaped);
    if escaped.None? {
      BookedThen(n, calls, more, l, before, l');
      RowPushed(c.offers, prior, rows, row, columns, before, l');
      rows' := rows + [row];
    }
    calls := calls + more;
  }

  datatype TrialEnd = Onward | Stops | Escapes(exc: Exc)

  /** How the ledger and the end of a trial follow from its calls: the trial escapes if and only if a
      call was deadly, and the run stops after it if and only if a call was final or too many failed. */
  ghost predicate Settled(c: Config, planned: nat, n: nat, calls: seq<Call>, l: Ledger, l': Ledger, end: TrialEnd) {
    && (end.Escapes? <==> AnyDeadly(calls))
    && match end
       case Escapes(exc) => LastWord(calls) == Some(exc)
       case _ =>
         && (end.Stops? <==> AnyFinal(calls) || ShouldFail(c.failOn, l'.errorCount, planned))
         && l'.halt == FirstFaulty(calls)
         && (l'.cancelled.Some? <==> InterruptedIn(calls, n))
         && (l'.cancelled.Some? ==> l'.cancelled.value.Cancel? && RaisedIn(calls, l'.cancelled.value))
         && (l'.status == Cancelled <==> l'.cancelled.Some?)
         && l'.scene == SceneAfter(l.scene, calls)
         && l'.errorCount == l.errorCount + Count(calls, IsFailure())
         && (l'.status == Success <==>
             l.status == Success && !Has(calls, IsBlemish()) && !ShouldFail(c.failOn, l'.errorCount, planned))
         && (end.Stops? ==> l'.status != Success)
         && (end.Onward? ==>
               && Resting(l')
               && (c.offers.park ==> Call(Park, n, Passed) in calls)
               && !Has(calls, IsStop()) && !Has(calls, IsBadPark()))
  }

  ghost predicate AfterPark(c: Config, planned: nat, n: nat, park: Hook, l: Ledger, calls: seq<Call>, l': Ledger,
                            end: TrialEnd) {
    && calls == (if l.cancelled.None? then ParkCalls(c.offers, n, park) else [])
    && (end.Escapes? <==> calls != [] && park.Raises? && park.exc.Keyboard())
    && (end.Escapes? ==> end.exc == park.exc)
    && l' == l.(status := l'.status, scene := l'.scene, halted := l'.halted, halt := l'.halt)
    && (!end.Escapes? ==>
          var failed := calls != [] && park.Raises?;
          && (l'.halted <==> l.halted || failed)
          && l'.halt == (if failed then HaltOf(park.exc) else None)
          && (end.Stops? <==> l'.halted || ShouldFail(c.failOn, l.errorCount, planned))
          && (l.halted && failed ==> l.scene == Status.Error)
          && l'.scene == (if failed && !l.halted then Status.Error else l.scene)
          && l'.status == if l.halted || end.Onward? then l.status else Status.Error)
  }

  /** park() after the trial, then the reasons to stop. A cancelled run is not parked. */
  method ParkAfter(c: Config, planned: nat, n: nat, park: Hook, l: Ledger)
    returns (calls: seq<Call>, l': Ledger, end: TrialEnd)
    requires l.halt.None? && (l.cancelled.Some? ==> l.halted)
    requires l.halted && l.cancelled.None? ==> l.scene == Status.Error
    ensures AfterPark(c, planned, n, park, l, calls, l', end)
  {
    calls, l', end := [], l, Onward;
    if l.cancelled.None? {
      var failed, halt, escaped;
      calls, failed, halt, escaped := ParkRobot(c.offers, n, park);
      if escaped.Some? {
        end := Escapes(escaped.value);
        return;
      }
      if failed && l'.halted {
        l' := l'.(halt := halt);
      } else if failed {
        l' := l'.(status := Status.Error, scene := Status.Error, halt := halt, halted := true);
      }
    }
    if l'.halted {
      end := Stops;
    } else if ShouldFail(c.failOn, l'.errorCount, planned) {
      l' := l'.(status := Status.Error);
      end := Stops;
    }
  }

  /** What the park at the end of a trial decides. */
  lemma ParkDecides(o: Offers, n: nat, park: Hook)
    ensures
      var parked := ParkCalls(o, n, park);
      && (AnyDeadly(parked) <==> o.park && park.Raises? && park.exc.Keyboard())
      && LastWord(parked) == (if AnyDeadly(parked) then Some(park.exc) else None)
      && (AnyFinal(parked) <==> o.park && park.Raises?)
      && FirstFaulty(parked) == (if o.park && park.Raises? then HaltOf(park.exc) else None)
      && forall status :: SceneAfter(status, parked) == if o.park && park.Raises? then Status.Error else status
  {
    NothingDecided();
    if o.park {
      OneCall(Call(Park, n, park.Reply()));
    }
  }

  /** The calls before the park let the trial go on. */
  ghost predicate Harbours(before: seq<Call>, l: Ledger, l1: Ledger) {
    && !AnyDeadly(before) && FirstFaulty(before).None? && (AnyFinal(before) <==> l1.halted)
    && l1.scene == SceneAfter(l.scene, before) && (l1.halted && l1.cancelled.None? ==> l1.scene == Status.Error)
  }

  lemma ParkSettles(c: Config, planned: nat, n: nat, park: Hook, before: seq<Call>, parked: seq<Call>,
                    l: Ledger, l1: Ledger, l2: Ledger, end: TrialEnd)
    requires Harbours(before, l, l1) && AfterPark(c, planned, n, park, l1, parked, l2, end)
    ensures end.Escapes? <==> AnyDeadly(before + parked)
    ensures end.Escapes? ==> LastWord(before + parked) == Some(end.exc)
    ensures
      !end.Escapes?
      ==>
        && (end.Stops? <==> AnyFinal(before + parked) || ShouldFail(c.failOn, l2.errorCount, planned))
        && l2.halt == FirstFaulty(before + parked) && l2.scene == SceneAfter(l.scene, before + parked)
  {
    hide SceneAfter, AnyFinal, AnyDeadly, LastWord, FirstFaulty;
    ParkDecides(c.offers, n, park);
    NothingDecided();
    LastWordAfter(before, parked);
    CutConcat(before, parked);
    SceneConcat(l.scene, before, parked);
    ConcatEmpty(before);
  }

  lemma SettledByPark(c: Config, planned: nat, n: nat, park: Hook, before: seq<Call>, parked: seq<Call>,
                      l: Ledger, l1: Ledger, l2: Ledger, end: TrialEnd)
    requires Open(c.offers, n, before) && !Has(before, IsFaulty()) && !AnyDeadly(before)
    requires Booked(n, before, l, l1)
    requires AfterPark(c, planned, n, park, l1, parked, l2, end)
    ensures Settled(c, planned, n, before + parked, l, l2, end)
    ensures TrialShape(c.offers, n, before + parked)
    ensures Count(before + parked, IsDone()) == Count(before, IsDone())
  {
    hide Count, SceneAfter, AnyFinal, AnyDeadly, LastWord, FirstFaulty;
    ParkSettles(c, planned, n, park, before, parked, l, l1, l2, end);
    ParkCloses(c.offers, n, before, park);
    ParkCounts(c.offers, n, park);
    NoBadPark(before, n);
    Join(before, parked, n);
    if l1.cancelled.Some? {
      assert before + parked == before;
    }
  }

  lemma NoBadPark(calls: seq<Call>, n: nat)
    requires InTrial(calls, n) && Parks(calls, n) == 0
    ensures !Has(calls, IsBadPark())
  {
    HasMeans(calls, IsBadPark());
    HasMeans(calls, IsPark(n));
  }

  lemma NoRollouts(calls: seq<Call>)
    requires forall c :: c in calls ==> c.kind != Rollout && c.kind != PolicyStart
    ensures Count(calls, IsFailure()) == 0 && Count(calls, IsDone()) == 0 && !Has(calls, IsStop())
  {
    CountNone(calls, IsFailure());
    CountNone(calls, IsDone());
    CountNone(calls, IsStop());
  }

  lemma {:induction false} ScoresDoNotPark(n: nat, rubrics: seq<Rubric>, judged: Option<string>,
                                          scores: string -> ScoreReply)
    ensures forall c :: c in ScorePlan(n, rubrics, judged, scores) ==> c.kind == Score
  {
    if rubrics != [] {
      ScoresDoNotPark(n, rubrics[..|rubrics| - 1], judged, scores);
    }
  }

  lemma PlansDoNotPark(o: Offers, n: nat, s: TrialScript, rubrics: seq<Rubric>)
    ensures forall c :: c in BodyPlan(o, n, s, rubrics) ==> c.kind != Park
  {
    hide RunPlan, CapturePlan;
    assert forall c :: c in RunPlan(o, n, s) ==> c.kind != Park by {
      RunDoesNotPark(o, n, s);
    }
    CaptureDoesNotPark(o, n, s, rubrics);
  }

  lemma RunDoesNotPark(o: Offers, n: nat, s: TrialScript)
    ensures forall c :: c in RunPlan(o, n, s) ==> c.kind != Park
  {
  }

  lemma CaptureDoesNotPark(o: Offers, n: nat, s: TrialScript, rubrics: seq<Rubric>)
    ensures forall c :: c in CapturePlan(o, n, s, rubrics) ==> c.kind != Park
  {
    hide ScorePlan, TrialRecord, JudgedRubric;
    var record := TrialRecord(o, s);
    if record.Some? {
      var graded := Graded(o, s, record.value);
      ScoresDoNotPark(n, rubrics, JudgedRubric(rubrics, graded.judgement, graded.judgedHint), s.scores);
      assert forall c :: c in GradePlan(o, n, s, record.value) ==> c.kind != Park;
      assert forall c :: c in EndPlan(o, n, s) ==> c.kind != Park;
    }
  }

  /** The last call of a cut plan is the deadly one. */
  lemma {:induction false} CutEnds(plan: seq<Call>)
    requires AnyDeadly(plan)
    ensures Cut(plan) != [] && Cut(plan)[|Cut(plan)| - 1] in plan
  {
    if !Deadly(plan[0]) {
      assert plan == [plan[0]] + plan[1..];
      CutEnds(plan[1..]);
    }
  }

  /** What leaves from a closed stage can be read off its calls. */
  lemma ClosingLastWord(o: Offers, n: nat, plan: seq<Call>, park: Hook)
    requires AnyDeadly(plan) && forall c :: c in plan ==> c.kind != Park
    ensures LastWord(Closing(o, n, plan, park, false)) == Leaving(o, plan, park, false)
  {
    CutMeans(plan);
    CutEnds(plan);
    CutConcat(Cut(plan), ParkCalls(o, n, park));
    ConcatEmpty(Cut(plan));
  }

  // ---------------------------------------------------------------- a cancel that is lost

  /**
   The scripts whose cancel does not leave the run: the rollout is reached and cancelled, the policy's
   end hook, if offered, does not raise a keyboard interrupt, and the sinks' end hook then raises an
   ordinary exception, a halt included.
   */
  predicate CancelLost(o: Offers, s: TrialScript) {
    && Reached(o, s) && s.sinkStart.Returns? && Started(o, s) && s.rollout.CancelledBy?
    && !(o.policyEnd && s.policyEnd.Raises? && s.policyEnd.exc.Keyboard())
    && s.sinkEnd.Raises? && !s.sinkEnd.exc.Keyboard()
  }

  /** Something was interrupted, and what leaves is no keyboard interrupt. */
  ghost predicate Lost(calls: seq<Call>) {
    AnyKeyed(calls) && LastWord(calls).Some? && !LastWord(calls).value.Keyboard()
  }

  /** The same of a plan that is cut at its first deadly call. */
  ghost predicate LostIn(plan: seq<Call>, quiet: bool) {
    (quiet || AnyKeyed(Cut(plan))) && DeadlyExc(plan).Some? && !DeadlyExc(plan).value.Keyboard()
  }

  lemma LostConcat(a: seq<Call>, b: seq<Call>, quiet: bool)
    ensures LostIn(a + b, quiet) <==> if AnyDeadly(a) then LostIn(a, quiet) else LostIn(b, quiet || AnyKeyed(a))
  {
    CutConcat(a, b);
    CutMeans(a);
    AnyConcat(a, Cut(b));
  }

  /** Only a cancelled rollout is interrupted without leaving at once. */
  predicate Candid(c: Call) {
    Keyed(c) ==> Deadly(c)
  }

  lemma {:induction false} NothingLost(plan: seq<Call>)
    requires forall c :: c in plan ==> Candid(c)
    ensures !LostIn(plan, false)
  {
    if plan != [] {
      assert plan == [plan[0]] + plan[1..] && Candid(plan[0]);
      LostConcat([plan[0]], plan[1..], false);
      OneCall(plan[0]);
      NothingLost(plan[1..]);
    }
  }

  lemma LostAfter(a: seq<Call>, b: seq<Call>)
    requires !AnyDeadly(a) && !AnyKeyed(a)
    ensures Lost(a + b) <==> Lost(b)
    ensures AnyDeadly(a + b) <==> AnyDeadly(b)
    ensures AnyKeyed(a + b) <==> AnyKeyed(b)
  {
    LastWordAfter(a, b);
    CutConcat(a, b);
  }

  lemma CheckLosesNothing(o: Offers, n: nat, s: TrialScript)
    ensures !Lost(CheckCalls(o, n, s))
    ensures ChecksPass(o, s) ==> !AnyKeyed(CheckCalls(o, n, s)) && !AnyDeadly(CheckCalls(o, n, s))
  {
    var health, ready := Call(Health, n, s.health), Call(Ready, n, s.ready);
    OneCall(health);
    OneCall(ready);
    NothingDecided();
    if o.health && s.health.Passed? {
      LostAfter([health], if o.ready then [ready] else []);
    }
  }

  lemma HomeLosesNothing(o: Offers, n: nat, home: Hook, park: Hook)
    ensures !Lost(HomeCalls(o, n, home, park))
    ensures !(o.home && home.Raises?) ==>
              !AnyKeyed(HomeCalls(o, n, home, park)) && !AnyDeadly(HomeCalls(o, n, home, park))
  {
    var arm, homed := Call(Arm, n, Passed), Call(Home, n, home.Reply());
    OneCall(arm);
    OneCall(homed);
    NothingDecided();
    var first := if o.home then [homed] else [];
    var parked := if o.home && home.Raises? && !home.exc.Keyboard() then ParkCalls(o, n, park) else [];
    ConcatAssociates([arm], first, parked);
    LostAfter([arm], first + parked);
    if o.home && home.Raises? && !home.exc.Keyboard() {
      OneCall(Call(Park, n, park.Reply()));
      LostAfter([homed], parked);
    } else {
      ConcatEmpty(first);
    }
  }

  /** No check, and no park of a platform that failed to home, loses an interrupt. */
  lemma ChecksLoseNothing(o: Offers, n: nat, s: TrialScript)
    ensures !Lost(BeforeCalls(o, n, s))
    ensures Reached(o, s) ==> !AnyKeyed(BeforeCalls(o, n, s)) && !AnyDeadly(BeforeCalls(o, n, s))
  {
    hide CheckCalls, HomeCalls, Lost;
    CheckLosesNothing(o, n, s);
    if ChecksPass(o, s) {
      HomeLosesNothing(o, n, s.home, s.park);
      LostAfter(CheckCalls(o, n, s), HomeCalls(o, n, s.home, s.park));
    }
  }

  /** Scoring, grading and the hooks around them keep quiet about nothing. */
  lemma PlansAreCandid(o: Offers, n: nat, s: TrialScript, rubrics: seq<Rubric>)
    ensures forall c :: c in SinkPlan(n, s) + StartPlan(o, n, s) + CapturePlan(o, n, s, rubrics) ==> Candid(c)
  {
    hide ScorePlan, TrialRecord, JudgedRubric;
    var record := TrialRecord(o, s);
    if record.Some? {
      var graded := Graded(o, s, record.value);
      ScoresDoNotPark(n, rubrics, JudgedRubric(rubrics, graded.judgement, graded.judgedHint), s.scores);
      assert forall c :: c in GradePlan(o, n, s, record.value) ==> Candid(c);
      assert forall c :: c in EndPlan(o, n, s) ==> Candid(c);
    }
  }

  lemma EndLoses(o: Offers, n: nat, s: TrialScript)
    requires Started(o, s)
    ensures
      LostIn(EndPlan(o, n, s), true)
      <==>
        && !(o.policyEnd && s.policyEnd.Raises? && s.policyEnd.exc.Keyboard())
        && s.sinkEnd.Raises? && !s.sinkEnd.exc.Keyboard()
  {
    var policy, sink := Call(PolicyEnd, n, s.policyEnd.Reply()), Call(SinkEnd, n, s.sinkEnd.Reply());
    OneCall(policy);
    OneCall(sink);
    if o.policyEnd {
      LostConcat([policy], [sink], true);
    } else {
      assert EndPlan(o, n, s) == [sink];
    }
  }

  lemma CancelledRun(o: Offers, n: nat, s: TrialScript)
    requires s.sinkStart.Returns? && Started(o, s) && s.rollout.CancelledBy?
    ensures !AnyDeadly(RunPlan(o, n, s)) && AnyKeyed(RunPlan(o, n, s))
  {
    var roll := Call(Rollout, n, s.rollout.Reply());
    var plan := RunPlan(o, n, s);
    assert plan[|plan| - 1] == roll && roll in plan && Keyed(roll);
  }

  lemma CancelledCapture(o: Offers, n: nat, s: TrialScript, rubrics: seq<Rubric>)
    requires Started(o, s) && s.rollout.CancelledBy?
    ensures CapturePlan(o, n, s, rubrics) == EndPlan(o, n, s)
  {
  }

  /** Without a cancelled rollout its stage is candid. */
  lemma RunIsCandid(o: Offers, n: nat, s: TrialScript)
    requires !(Started(o, s) && s.rollout.CancelledBy?)
    ensures forall c :: c in RunPlan(o, n, s) ==> Candid(c)
  {
  }

  /** The body of a trial loses a cancel exactly when its end hooks do. */
  lemma BodyLoses(o: Offers, n: nat, s: TrialScript, rubrics: seq<Rubric>)
    requires Reached(o, s)
    ensures LostIn(BodyPlan(o, n, s, rubrics), false) <==> CancelLost(o, s)
  {
    hide LostIn, CapturePlan, StartPlan, RollPlan, EndPlan, Reached, Candid;
    var sinks, capture := SinkPlan(n, s), CapturePlan(o, n, s, rubrics);
    var rest := StartPlan(o, n, s) + (if Started(o, s) then RollPlan(n, s) else []);
    PlansAreCandid(o, n, s, rubrics);
    if s.sinkStart.Raises? {
      OneCall(sinks[0]);
      ConcatAssociates(sinks, rest, capture);
      LostConcat(sinks, rest + capture, false);
      NothingLost(sinks);
    } else if Started(o, s) && s.rollout.CancelledBy? {
      CancelledRun(o, n, s);
      CancelledCapture(o, n, s, rubrics);
      hide RunPlan;
      LostConcat(RunPlan(o, n, s), EndPlan(o, n, s), false);
      EndLoses(o, n, s);
    } else {
      RunIsCandid(o, n, s);
      hide RunPlan;
      NothingLost(BodyPlan(o, n, s, rubrics));
    }
  }

  /** A trial loses its cancel if and only if its script says so. */
  lemma CancelIsLost(o: Offers, n: nat, s: TrialScript, rubrics: seq<Rubric>)
    ensures Lost(TrialCalls(o, n, s, rubrics)) <==> CancelLost(o, s)
  {
    ChecksLoseNothing(o, n, s);
    if Reached(o, s) {
      var before, plan := BeforeCalls(o, n, s), BodyPlan(o, n, s, rubrics);
      BodyLoses(o, n, s, rubrics);
      PlansDoNotPark(o, n, s, rubrics);
      hide BodyPlan, BeforeCalls, CancelLost, Reached;
      TailLoses(o, n, s.park, before, plan);
    }
  }

  lemma TailLoses(o: Offers, n: nat, park: Hook, before: seq<Call>, plan: seq<Call>)
    requires !AnyDeadly(before) && !AnyKeyed(before) && forall c :: c in plan ==> c.kind != Park
    ensures
      var body := Cut(plan);
      Lost(before + body + (if AnyKeyed(body) then [] else ParkCalls(o, n, park))) <==> LostIn(plan, false)
  {
    hide AnyFinal;
    var body := Cut(plan);
    var parked := if AnyKeyed(body) then [] else ParkCalls(o, n, park);
    ConcatAssociates(before, body, parked);
    CutMeans(plan);
    LostAfter(before, body + parked);
    if AnyDeadly(plan) {
      WordLoses(o, n, park, plan);
    } else {
      hide FirstFaulty, SceneAfter;
      ConcatEmpty(body);
      CutConcat(body, parked);
      LastWordAfter(body, parked);
      ParkDecides(o, n, park);
      LeftWord(body);
    }
  }

  lemma WordLoses(o: Offers, n: nat, park: Hook, plan: seq<Call>)
    requires AnyDeadly(plan) && forall c :: c in plan ==> c.kind != Park
    ensures
      var body := Cut(plan);
      Lost(body + (if AnyKeyed(body) then [] else ParkCalls(o, n, park))) <==> LostIn(plan, false)
  {
    hide AnyFinal, AnyDeadly, FirstFaulty, Deadly, LastWord, DeadlyExc;
    var body := Cut(plan);
    var parked := if AnyKeyed(body) then [] else ParkCalls(o, n, park);
    CutMeans(plan);
    AnyConcat(body, parked);
    ClosingLastWord(o, n, plan, park);
  }

  /** Such a script: the operator cancels the rollout, and a sink then fails on the cancelled trial. */
  lemma ASinkLosesACancel(o: Offers, n: nat, record: Record, rubrics: seq<Rubric>)
    ensures
      var s := TrialScript(Passed, Passed, Returns, Returns, Returns, CancelledBy(0, record), record, Returns,
                           GradeRaises(Plain(1)), _ => Value(None), Returns, (r: Record) => r, Raises(Plain(2)), Returns);
      Lost(TrialCalls(o, n, s, rubrics))
  {
    var s := TrialScript(Passed, Passed, Returns, Returns, Returns, CancelledBy(0, record), record, Returns,
                         GradeRaises(Plain(1)), _ => Value(None), Returns, (r: Record) => r, Raises(Plain(2)), Returns);
    CancelIsLost(o, n, s, rubrics);
  }

  lemma EscapeLoses(c: Config, planned: nat, n: nat, s: TrialScript, rubrics: seq<Rubric>, calls: seq<Call>,
                    l: Ledger, l': Ledger, end: TrialEnd)
    requires TrialShape(c.offers, n, calls) && calls == TrialCalls(c.offers, n, s, rubrics)
    requires Settled(c, planned, n, calls, l, l', end)
    ensures end.Escapes? && InterruptedIn(calls, n) && !end.exc.Keyboard() <==> CancelLost(c.offers, s)
  {
    hide CancelLost, TrialCalls, LastWord, Count, FirstFaulty, SceneAfter, AnyFinal;
    CancelIsLost(c.offers, n, s, rubrics);
    KeyedHere(calls, n);
    LeftWord(calls);
  }

  lemma LeftWord(calls: seq<Call>)
    ensures AnyDeadly(calls) <==> LastWord(calls).Some?
  {
    CutMeans(calls);
  }

  // ---------------------------------------------------------------- a whole trial

  /** One trial: the checks, the body, the park, and whether the run goes on. */
  method RunTrial(c: Config, planned: nat, n: nat, s: TrialScript, rubrics: seq<Rubric>, l: Ledger, columns: Columns,
                  ghost prior: seq<Row>, rows: seq<Row>)
    returns (calls: seq<Call>, l': Ledger, columns': Columns, rows': seq<Row>, end: TrialEnd)
    requires UniqueNames(rubrics) && Resting(l)
    requires Accounts(c.offers, prior + rows, l) && Aligned(columns, rows)
    ensures TrialShape(c.offers, n, calls) && calls == TrialCalls(c.offers, n, s, rubrics)
    ensures Settled(c, planned, n, calls, l, l', end)
    ensures !end.Escapes? ==>
              && Accounts(c.offers, prior + rows', l') && Aligned(columns', rows')
              && (if LeavesRecord(c.offers, s) then Recorded(c.offers, rubrics, s, rows, rows') else rows' == rows)
              && Count(prior + rows', IsSuccess()) == Count(prior + rows, IsSuccess()) + Count(calls, IsDone())
    ensures end.Onward? ==> LeavesRecord(c.offers, s)
    ensures end.Escapes? && InterruptedIn(calls, n) && !end.exc.Keyboard() <==> CancelLost(c.offers, s)
  {
    hide Count, Closed, SceneAfter, AnyFinal, AnyDeadly, AnyKeyed, LastWord, FirstFaulty, Decided, TrialShape;
    hide Accounts, Aligned, BodyPlan, CheckCalls, HomeCalls, CancelLost;
    l', columns', rows' := l, columns, rows;
    var start;
    calls, start := BeforeTrial(c.offers, n, s);
    NoRollouts(calls);
    DecidedMeans(calls, start, l.scene);
    if !start.Go? {
      if start.NotReady? {
        l', end := l.(status := Status.Error, scene := Status.Error, halt := start.halt), Stops;
        NotReadySettles(c, planned, n, calls, l, start.halt);
        AccountsKept(c.offers, prior + rows, l, l');
      } else {
        end := Escapes(start.exc);
      }
      EscapeLoses(c, planned, n, s, rubrics, calls, l, l', end);
      return;
    }
    var more, escaped;
    more, l', columns', rows', escaped := TrialBody(c, n, s, rubrics, l, columns, prior, rows);
    BodyDecides(c.offers, n, s, rubrics, calls, more, escaped, l.scene);
    StageJoins(c.offers, n, calls, more, escaped);
    Join(calls, more, n);
    if escaped.Some? {
      calls, end := calls + more, Escapes(escaped.value);
      EscapeLoses(c, planned, n, s, rubrics, calls, l, l', end);
      return;
    }
    RunDecides(calls, more, l.scene);
    KeyedHere(more, n);
    calls := calls + more;
    assert Booked(n, calls, l, l');
    ghost var before, booked := calls, l';
    more, l', end := ParkAfter(c, planned, n, s.park, l');
    SettledByPark(c, planned, n, s.park, before, more, l, booked, l', end);
    AccountsKept(c.offers, prior + rows', booked, l');
    calls := calls + more;
    EscapeLoses(c, planned, n, s, rubrics, calls, l, l', end);
  }

  /** The trial leaves a record to be logged. */
  predicate LeavesRecord(o: Offers, s: TrialScript) {
    Reached(o, s) && TrialRecord(o, s).Some?
  }

  lemma DecidedMeans(calls: seq<Call>, start: Start, status: Status)
    requires Decided(calls, start)
    ensures start.StartEscapes? <==> AnyDeadly(calls)
    ensures start.StartEscapes? ==> LastWord(calls) == Some(start.exc)
    ensures start.NotReady? ==> AnyFinal(calls) && start.halt == FirstFaulty(calls) && SceneAfter(status, calls) == Status.Error
    ensures start.Go? ==> !AnyFinal(calls) && FirstFaulty(calls).None? && SceneAfter(status, calls) == status
  {
    CutMeans(calls);
  }

  lemma NotReadySettles(c: Config, planned: nat, n: nat, calls: seq<Call>, l: Ledger, halt: Option<Exc>)
    requires Resting(l) && Explained(n, calls, NotReady(halt)) && Count(calls, IsFailure()) == 0
    requires !AnyDeadly(calls) && AnyFinal(calls) && halt == FirstFaulty(calls)
    requires SceneAfter(l.scene, calls) == Status.Error
    ensures Settled(c, planned, n, calls, l, l.(status := Status.Error, scene := Status.Error, halt := halt), Stops)
  {
  }

  /** The body after the checks: the trial's calls so far, and what leaves if something does. */
  lemma BodyDecides(o: Offers, n: nat, s: TrialScript, rubrics: seq<Rubric>, before: seq<Call>, more: seq<Call>,
                    escaped: Option<Exc>, status: Status)
    requires Reached(o, s) && before == BeforeCalls(o, n, s) && !AnyDeadly(before)
    requires Closed(o, n, BodyPlan(o, n, s, rubrics), s.park, false, more, escaped)
    ensures escaped.Some? <==> AnyDeadly(before + more)
    ensures escaped.Some? ==> LastWord(before + more) == escaped && before + more == TrialCalls(o, n, s, rubrics)
    ensures
      escaped.None?
      ==>
        TrialCalls(o, n, s, rubrics) == before + more + (if AnyKeyed(more) then [] else ParkCalls(o, n, s.park))
  {
    var plan := BodyPlan(o, n, s, rubrics);
    hide BodyPlan, BeforeCalls;
    PlansDoNotPark(o, n, s, rubrics);
    CutMeans(plan);
    CutMeans(before + more);
    CutConcat(before, more);
    LastWordAfter(before, more);
    ClosingThen(o, n, plan, [], s.park, false);
    ConcatEmpty(Cut(plan));
    ConcatEmpty(before + more);
    if AnyDeadly(plan) {
      CutConcat(Cut(plan), if AnyKeyed(Cut(plan)) then [] else ParkCalls(o, n, s.park));
      ClosingLastWord(o, n, plan, s.park);
      ConcatAssociates(before, Cut(plan), ParkCalls(o, n, s.park));
    }
  }

  // ---------------------------------------------------------------- the run

  /** A trial the run plans, with the rubrics of its scene. */
  datatype Planned = Planned(script: TrialScript, rubrics: seq<Rubric>)

  function SceneTrials(scene: Scene): seq<Planned> {
    seq(|scene.trials|, e requires 0 <= e < |scene.trials| => Planned(scene.trials[e], scene.rubrics))
  }

  /** Every trial the run plans, in order. */
  function AllTrials(scenes: seq<Scene>): seq<Planned> {
    if scenes == [] then [] else AllTrials(scenes[..|scenes| - 1]) + SceneTrials(scenes[|scenes| - 1])
  }

  /** The calls of the first `k` planned trials. */
  ghost function TraceOf(o: Offers, all: seq<Planned>, k: nat): seq<Call>
    requires k <= |all|
  {
    if k == 0 then [] else TraceOf(o, all, k - 1) + TrialCalls(o, k - 1, all[k - 1].script, all[k - 1].rubrics)
  }

  /** After `k` trials nothing keeps the run from beginning another: no call's exception left it, none
      was final, and not too many failed. */
  ghost predicate GoesOn(c: Config, planned: nat, all: seq<Planned>, k: nat)
    requires k <= |all|
  {
    var trace := TraceOf(c.offers, all, k);
    !AnyDeadly(trace) && !AnyFinal(trace) && !ShouldFail(c.failOn, Count(trace, IsFailure()), planned)
  }

  /** The run could not go on after trial `k`. */
  ghost predicate Halted(c: Config, planned: nat, all: seq<Planned>, k: nat) {
    k <= |all| && !GoesOn(c, planned, all, k)
  }

  /** Exactly the first `k` planned trials were begun, each because nothing before it stopped the run. */
  ghost predicate Ran(c: Config, planned: nat, all: seq<Planned>, k: nat, trace: seq<Call>) {
    && k <= |all| && trace == TraceOf(c.offers, all, k)
    && forall j :: 0 <= j < k ==> GoesOn(c, planned, all, j)
  }

  /** How many of the first `k` trials are recorded: all, but the last one if it left no record. */
  ghost function RecordedOf(o: Offers, all: seq<Planned>, k: nat): nat
    requires k <= |all|
  {
    if k > 0 && !LeavesRecord(o, all[k - 1].script) then k - 1 else k
  }

  predicate IsBroken(samples: seq<Sample>) {
    exists i :: 0 <= i < |samples| && samples[i].brokenReductions != {}
  }

  /** The state of a run after a trial, whether or not it goes on. */
  ghost predicate Ledgered(c: Config, planned: nat, trace: seq<Call>, l: Ledger, rows: seq<Row>, broken: bool) {
    && Bracketed(c.offers, trace)
    && Accounts(c.offers, rows, l)
    && (forall x :: x in trace ==> x.kind != EvalEnd)
    && l.errorCount == Count(trace, IsFailure())
    && Count(rows, IsSuccess()) == Count(trace, IsDone())
    && l.halt == FirstFaulty(trace) && !AnyDeadly(trace)
    && (l.cancelled.Some? <==> Has(trace, IsKeyed()))
    && (l.cancelled.Some? ==> l.cancelled.value.Cancel? && RaisedIn(trace, l.cancelled.value))
    && (l.status == Cancelled <==> l.cancelled.Some?)
    && (l.status == Success <==>
        !broken && !Has(trace, IsBlemish()) && !ShouldFail(c.failOn, l.errorCount, planned))
  }

  /** The state of a run that starts another trial. */
  ghost predicate Underway(c: Config, planned: nat, trace: seq<Call>, l: Ledger, rows: seq<Row>, broken: bool) {
    && Ledgered(c, planned, trace, l, rows, broken)
    && AtRest(c.offers, trace)
    && Resting(l) && !AnyFinal(trace)
    && !ShouldFail(c.failOn, l.errorCount, planned)
  }

  /** A run that begins trial `n`: it is the next planned one, and all trials before it are recorded. */
  ghost predicate AtTrial(c: Config, planned: nat, all: seq<Planned>, n: nat, trace: seq<Call>, rows: seq<Row>) {
    Ran(c, planned, all, n, trace) && GoesOn(c, planned, all, n) && |rows| == n == RecordedOf(c.offers, all, n)
  }

  /** An exception left the run before the log was offered: a call was deadly, and this is its word. */
  ghost predicate Left(c: Config, trace: seq<Call>, exc: Exc) {
    && Bracketed(c.offers, trace)
    && (forall x :: x in trace ==> x.kind != EvalEnd)
    && AnyDeadly(trace) && LastWord(trace) == Some(exc)
  }

  lemma TrialLeaves(c: Config, planned: nat, n: nat, trace: seq<Call>, calls: seq<Call>, l: Ledger, l': Ledger, exc: Exc)
    requires Bracketed(c.offers, trace) && AtRest(c.offers, trace) && !AnyDeadly(trace)
    requires forall x :: x in trace ==> x.trial < n
    requires TrialShape(c.offers, n, calls) && Settled(c, planned, n, calls, l, l', Escapes(exc))
    ensures Left(c, trace + calls, exc)
  {
    hide Count, AnyDeadly, LastWord;
    BracketExtends(c.offers, trace, n, calls);
    LastWordAfter(trace, calls);
    CutConcat(trace, calls);
  }

  /** Trial `n` was begun; whether the run goes on after it is decided by what it and the failures say. */
  lemma TrialRan(c: Config, planned: nat, all: seq<Planned>, n: nat, trace: seq<Call>, calls: seq<Call>)
    requires Ran(c, planned, all, n, trace) && GoesOn(c, planned, all, n) && n < |all|
    requires calls == TrialCalls(c.offers, n, all[n].script, all[n].rubrics)
    ensures Ran(c, planned, all, n + 1, trace + calls)
    ensures
      GoesOn(c, planned, all, n + 1)
      <==>
        && !AnyDeadly(calls) && !AnyFinal(calls)
        && !ShouldFail(c.failOn, Count(trace, IsFailure()) + Count(calls, IsFailure()), planned)
  {
    hide Count, AnyDeadly, AnyFinal, TrialCalls;
    CountConcat(trace, calls, IsFailure());
    CutConcat(trace, calls);
    assert TraceOf(c.offers, all, n + 1) == trace + calls;
  }

  lemma {:induction false} FaultyFirst(calls: seq<Call>)
    ensures Has(calls, IsFaulty()) <==> FirstFaulty(calls).Some?
    ensures FirstFaulty(calls).Some? ==> FirstFaulty(calls).value.Halt? && RaisedIn(calls, FirstFaulty(calls).value)
  {
    if calls != [] {
      hide Count;
      assert calls == [calls[0]] + calls[1..];
      Join([calls[0]], calls[1..], 0);
      Single(calls[0]);
      FaultyFirst(calls[1..]);
    } else {
      NoCalls(0);
    }
  }

  lemma TrialRests(o: Offers, n: nat, trace: seq<Call>, calls: seq<Call>)
    requires AtRest(o, trace) && TrialShape(o, n, calls)
    requires o.park ==> Call(Park, n, Passed) in calls
    requires !InterruptedIn(calls, n) && FirstFaulty(calls).None? && !Has(calls, IsStop()) && !Has(calls, IsBadPark())
    ensures AtRest(o, trace + calls)
  {
    hide Count;
    FaultyFirst(calls);
    Join(trace, calls, n);
    AllHere(calls, n);
    forall m: nat | o.park && Armed(trace + calls, m)
      ensures Call(Park, m, Passed) in trace + calls
    {
      assert Armed(trace, m) || Armed(calls, m);
    }
  }

  lemma TrialLedgers(c: Config, planned: nat, n: nat, trace: seq<Call>, calls: seq<Call>, l: Ledger, l': Ledger,
                     rows: seq<Row>, rows': seq<Row>, broken: bool, end: TrialEnd)
    requires Underway(c, planned, trace, l, rows, broken)
    requires forall x :: x in trace ==> x.trial < n
    requires TrialShape(c.offers, n, calls) && Settled(c, planned, n, calls, l, l', end)
    requires !end.Escapes? && Accounts(c.offers, rows', l')
    requires Count(rows', IsSuccess()) == Count(rows, IsSuccess()) + Count(calls, IsDone())
    ensures Ledgered(c, planned, trace + calls, l', rows', broken)
  {
    hide Count, AnyDeadly, FirstFaulty;
    BracketExtends(c.offers, trace, n, calls);
    Join(trace, calls, n);
    AllHere(calls, n);
    CutConcat(trace, calls);
    FaultyFirst(trace);
  }

  // ---------------------------------------------------------------- a scene

  /** Whether some trial of the scene has a score for `name`. */
  predicate HasScore(rows: seq<Row>, name: string) {
    exists k :: 0 <= k < |rows| && name in rows[k].epoch
  }

  /** Reduces every rubric that was scored; a reducer failure degrades the run. */
  method ReduceScene(scene: Scene, rows: seq<Row>, l: Ledger) returns (broken: set<string>, l': Ledger)
    ensures forall name :: name in broken <==>
              HasScore(rows, name) && name in scene.reducerFails && exists r :: r in scene.rubrics && r.name == name
    ensures l' == l.(status := if l.status == Success && broken != {} then Status.Error else l.status,
                     scene := if broken != {} then Status.Error else l.scene)
  {
    broken, l' := {}, l;
    for i := 0 to |scene.rubrics|
      invariant forall name :: name in broken <==>
                  HasScore(rows, name) && name in scene.reducerFails
                  && exists j :: 0 <= j < i && scene.rubrics[j].name == name
      invariant l' == l.(status := if l.status == Success && broken != {} then Status.Error else l.status,
                         scene := if broken != {} then Status.Error else l.scene)
    {
      var name := scene.rubrics[i].name;
      if HasScore(rows, name) && name in scene.reducerFails {
        broken := broken + {name};
        l' := l'.(status := if l'.status == Success then Status.Error else l'.status, scene := Status.Error);
      }
    }
  }

  /** The rows are the scene's first trials in order, and the columns are parallel to them. */
  ghost predicate Kept(o: Offers, scene: Scene, columns: Columns, rows: seq<Row>) {
    && Aligned(columns, rows)
    && |rows| <= |scene.trials|
    && forall k :: 0 <= k < |rows| ==> CapturedRow(o, scene.rubrics, scene.trials[k], rows[k])
  }

  lemma NothingKept(o: Offers, scene: Scene)
    ensures Kept(o, scene, EMPTY_COLUMNS, [])
  {
  }

  /** A sample records the scene's trials in order, in aligned columns. */
  ghost predicate Faithful(o: Offers, scene: Scene, sample: Sample) {
    && sample.sceneId == scene.id
    && Kept(o, scene, sample.columns, sample.rows)
    && (forall name :: name in sample.brokenReductions <==>
          HasScore(sample.rows, name) && name in scene.reducerFails
          && exists r :: r in scene.rubrics && r.name == name)
  }

  /** One more trial of a scene, appended to the run's trace. */
  method NextTrial(c: Config, planned: nat, ghost all: seq<Planned>, n: nat, scene: Scene, e: nat, l: Ledger,
                   trace: seq<Call>, columns: Columns, rows: seq<Row>, ghost prior: seq<Row>, ghost broken: bool)
    returns (trace': seq<Call>, l': Ledger, columns': Columns, rows': seq<Row>, end: TrialEnd)
    requires UniqueNames(scene.rubrics) && e < |scene.trials|
    requires n < |all| && all[n] == Planned(scene.trials[e], scene.rubrics)
    requires Underway(c, planned, trace, l, prior + rows, broken) && AtTrial(c, planned, all, n, trace, prior + rows)
    requires Kept(c.offers, scene, columns, rows) && |rows| == e
    requires forall x :: x in trace ==> x.trial < n
    ensures forall x :: x in trace' ==> x.trial < n + 1
    ensures Ran(c, planned, all, n + 1, trace') && trace <= trace'
    ensures end.Escapes? ==> Left(c, trace', end.exc)
    ensures !end.Escapes? ==> Ledgered(c, planned, trace', l', prior + rows', broken) && Kept(c.offers, scene, columns', rows')
    ensures !end.Escapes? ==> |prior + rows'| == RecordedOf(c.offers, all, n + 1)
    ensures !end.Escapes? ==> l'.scene == SceneAfter(l.scene, trace'[|trace|..])
    ensures end.Onward? ==>
              && Underway(c, planned, trace', l', prior + rows', broken) && |rows'| == e + 1
              && AtTrial(c, planned, all, n + 1, trace', prior + rows')
    ensures end.Stops? ==> l'.status != Success && Halted(c, planned, all, n + 1)
  {
    hide Ran, GoesOn, Bracketed, SceneAfter, TrialCalls, AnyDeadly, AnyFinal, Count, ParkedOnce, ChecksPassed, Accounts, Aligned, AtRest;
    hide CapturedRow, LastWord;
    var calls;
    calls, l', columns', rows', end := RunTrial(c, planned, n, scene.trials[e], scene.rubrics, l, columns, prior, rows);
    trace' := trace + calls;
    assert trace'[|trace|..] == calls;
    TrialRan(c, planned, all, n, trace, calls);
    if end.Escapes? {
      TrialLeaves(c, planned, n, trace, calls, l, l', end.exc);
    } else {
      TrialLedgers(c, planned, n, trace, calls, l, l', prior + rows, prior + rows', broken, end);
      KeepsRows(c.offers, scene, e, columns', rows, rows');
      if end.Onward? {
        TrialRests(c.offers, n, trace, calls);
        CutConcat(trace, calls);
      }
    }
  }

  lemma KeepsRows(o: Offers, scene: Scene, e: nat, columns: Columns, rows: seq<Row>, rows': seq<Row>)
    requires e < |scene.trials| && |rows| == e && Aligned(columns, rows')
    requires forall k :: 0 <= k < |rows| ==> CapturedRow(o, scene.rubrics, scene.trials[k], rows[k])
    requires rows' == rows || Recorded(o, scene.rubrics, scene.trials[e], rows, rows')
    ensures Kept(o, scene, columns, rows')
  {
    forall k | 0 <= k < |rows'|
      ensures CapturedRow(o, scene.rubrics, scene.trials[k], rows'[k])
    {
      if k < e {
        assert rows'[k] == rows[k];
      }
    }
  }

  /** The status a scene's calls and its reductions leave. */
  function SceneStatus(calls: seq<Call>, broken: set<string>): Status {
    if broken != {} then Status.Error else SceneAfter(Success, calls)
  }

  /** The inner loop: a scene's epochs, numbered from `first`; `n` counts the trials begun so far. */
  method RunScene(c: Config, planned: nat, ghost all: seq<Planned>, first: nat, scene: Scene, l: Ledger,
                  trace: seq<Call>, ghost prior: seq<Row>, ghost broken: bool)
    returns (trace': seq<Call>, l': Ledger, sample: Sample, n: nat, end: TrialEnd)
    requires UniqueNames(scene.rubrics)
    requires first + |scene.trials| <= |all| && all[first..first + |scene.trials|] == SceneTrials(scene)
    requires Underway(c, planned, trace, l, prior, broken) && AtTrial(c, planned, all, first, trace, prior)
    requires forall x :: x in trace ==> x.trial < first
    ensures first <= n <= first + |scene.trials| && Ran(c, planned, all, n, trace') && trace <= trace'
    ensures forall x :: x in trace' ==> x.trial < n
    ensures end.Escapes? ==> Left(c, trace', end.exc)
    ensures !end.Escapes? ==> Faithful(c.offers, scene, sample)
    ensures !end.Escapes? ==> sample.status == SceneStatus(trace'[|trace|..], sample.brokenReductions)
    ensures !end.Escapes? ==>
              Ledgered(c, planned, trace', l', prior + sample.rows, broken || sample.brokenReductions != {})
    ensures !end.Escapes? ==> |prior + sample.rows| == RecordedOf(c.offers, all, n)
    ensures end.Onward? ==>
              && Underway(c, planned, trace', l', prior + sample.rows, broken || sample.brokenReductions != {})
              && AtTrial(c, planned, all, n, trace', prior + sample.rows)
              && n == first + |scene.trials| && |sample.rows| == |scene.trials|
    ensures end.Stops? ==> l'.status != Success && Halted(c, planned, all, n)
  {
    hide Ran, GoesOn, Bracketed, TrialCalls, AnyDeadly, AnyFinal, Count, SceneAfter, Ledgered, Underway, AtTrial, Left,
      Aligned, CapturedRow;
    trace', l', n, end := trace, l.(scene := Success), first, Onward;
    var columns, rows := EMPTY_COLUMNS, [];
    sample := Sample(scene.id, Success, columns, rows, {});
    assert prior + rows == prior;
    SceneBegins(c, planned, all, first, l, trace, prior, broken);
    NothingKept(c.offers, scene);
    UnderwayMeans(c, planned, all, first, trace, l', prior, broken);
    for e := 0 to |scene.trials|
      invariant end.Onward? && n == first + e && trace <= trace'
      invariant Underway(c, planned, trace', l', prior + rows, broken)
      invariant AtTrial(c, planned, all, n, trace', prior + rows)
      invariant Ledgered(c, planned, trace', l', prior + rows, broken) && Ran(c, planned, all, n, trace')
      invariant Kept(c.offers, scene, columns, rows) && |rows| == e
      invariant l'.scene == SceneAfter(Success, trace'[|trace|..])
      invariant forall x :: x in trace' ==> x.trial < n
    {
      assert all[n] == all[first..first + |scene.trials|][e];
      ghost var was := trace';
      trace', l', columns, rows, end := NextTrial(c, planned, all, n, scene, e, l', trace', columns, rows, prior, broken);
      n := n + 1;
      if end.Escapes? {
        return;
      }
      assert trace'[|trace|..] == was[|trace|..] + trace'[|was|..];
      SceneConcat(Success, was[|trace|..], trace'[|was|..]);
      if end.Stops? {
        break;
      }
    }
    var lost;
    ghost var reduced := l';
    lost, l' := ReduceScene(scene, rows, l');
    ReductionLedgers(c, planned, all, n, trace', reduced, l', prior + rows, broken, lost);
    sample := Sample(scene.id, l'.scene, columns, rows, lost);
  }

  /** A reduction that fails degrades the run, and nothing else. */
  lemma ReductionLedgers(c: Config, planned: nat, all: seq<Planned>, n: nat, trace: seq<Call>, l: Ledger, l': Ledger,
                         rows: seq<Row>, broken: bool, lost: set<string>)
    requires Ledgered(c, planned, trace, l, rows, broken)
    requires l' == l.(status := if l.status == Success && lost != {} then Status.Error else l.status, scene := l'.scene)
    ensures Ledgered(c, planned, trace, l', rows, broken || lost != {})
    ensures Underway(c, planned, trace, l, rows, broken) ==> Underway(c, planned, trace, l', rows, broken || lost != {})
    ensures AtTrial(c, planned, all, n, trace, rows) ==> Ran(c, planned, all, n, trace) && |rows| == RecordedOf(c.offers, all, n)
    ensures l.status != Success ==> l'.status != Success
  {
    hide Bracketed, Count, AnyDeadly, AnyFinal, FirstFaulty, GoesOn, Ran, AtRest;
  }

  lemma UnderwayMeans(c: Config, planned: nat, all: seq<Planned>, n: nat, trace: seq<Call>, l: Ledger, rows: seq<Row>,
                      broken: bool)
    requires Underway(c, planned, trace, l, rows, broken) && AtTrial(c, planned, all, n, trace, rows)
    ensures Ledgered(c, planned, trace, l, rows, broken) && Ran(c, planned, all, n, trace)
  {
  }

  lemma SceneBegins(c: Config, planned: nat, all: seq<Planned>, n: nat, l: Ledger, trace: seq<Call>, rows: seq<Row>,
                    broken: bool)
    requires Underway(c, planned, trace, l, rows, broken) && AtTrial(c, planned, all, n, trace, rows)
    ensures Underway(c, planned, trace, l.(scene := Success), rows, broken)
    ensures SceneAfter(Success, trace[|trace|..]) == Success
  {
  }

  // ---------------------------------------------------------------- the whole run

  function AllRows(samples: seq<Sample>): seq<Row> {
    if samples == [] then [] else AllRows(samples[..|samples| - 1]) + samples[|samples| - 1].rows
  }

  /** Trials `first` on are the scene's. */
  lemma {:induction false} TrialsOfScene(scenes: seq<Scene>, i: nat)
    requires i < |scenes|
    ensures |AllTrials(scenes[..i])| + |scenes[i].trials| <= |AllTrials(scenes)|
    ensures
      var first := |AllTrials(scenes[..i])|;
      AllTrials(scenes)[first..first + |scenes[i].trials|] == SceneTrials(scenes[i])
    ensures |AllTrials(scenes[..i + 1])| == |AllTrials(scenes[..i])| + |scenes[i].trials|
    decreases |scenes|
  {
    assert scenes[..i + 1][..i] == scenes[..i];
    var front := scenes[..|scenes| - 1];
    if i < |front| {
      assert front[..i] == scenes[..i];
      TrialsOfScene(front, i);
      var first := |AllTrials(front[..i])|;
      assert AllTrials(scenes)[first..first + |scenes[i].trials|] == AllTrials(front)[first..first + |scenes[i].trials|];
    } else {
      assert scenes[..i] == front;
    }
  }

  /** The log accounts for the run whose calls, before the sinks' last hook, are `calls`. */
  ghost predicate LogOf(c: Config, scenes: seq<Scene>, calls: seq<Call>, trials: nat, log: Log) {
    var rows := AllRows(log.samples);
    && trials <= |AllTrials(scenes)| && |rows| == RecordedOf(c.offers, AllTrials(scenes), trials)
    && |log.samples| <= |scenes|
    && (forall i :: 0 <= i < |log.samples| ==> Faithful(c.offers, scenes[i], log.samples[i]))
    && (forall i :: 0 <= i < |log.samples| - 1 ==> |log.samples[i].rows| == |scenes[i].trials|)
    && log.totalTrials == |rows|
    && log.erroredTrials == Count(rows, IsErrored())
    && Count(rows, IsSuccess()) == Count(calls, IsDone())
    && (forall name :: CountOf(log.abstentions, name) == Count(rows, AbstainsOn(name)))
    && (log.status == Cancelled <==> Has(calls, IsKeyed()))
    && (log.status == Success <==>
        && !Has(calls, IsBlemish())
        && !IsBroken(log.samples)
        && !ShouldFail(c.failOn, Count(calls, IsFailure()), |scenes| * c.epochs)
        && Count(rows, IsUngraded(c.offers)) == 0
        && (|rows| == 0 || Count(rows, IsErrored()) < |rows|))
    && (log.status == Success ==>
          |log.samples| == |scenes| && forall i :: 0 <= i < |scenes| ==> |log.samples[i].rows| == |scenes[i].trials|)
  }

  /** What is raised once the log was offered: an interrupt of that hook, else the recorded cancel, else
      the recorded halt, else the hook's own failure. */
  ghost predicate ExitFollows(calls: seq<Call>, last: Call, exit: Exit) {
    if Keyed(last) then exit.Leaves? && last.reply == Raised(exit.exc)
    else if Has(calls, IsKeyed()) then exit.Leaves? && exit.exc.Cancel? && RaisedIn(calls, exit.exc)
    else if FirstFaulty(calls).Some? then exit.Leaves? && FirstFaulty(calls) == Some(exit.exc)
    else if last.reply.Raised? then exit.Leaves? && last.reply == Raised(exit.exc)
    else exit.Returned?
  }

  /** How the exit of a run follows from its calls: it leaves without a log if and only if a call was
      deadly; otherwise every planned trial was begun unless the run could not go on. */
  ghost predicate Concluded(c: Config, scenes: seq<Scene>, run: Run) {
    var all, planned := AllTrials(scenes), |scenes| * c.epochs;
    if run.exit.Leaves? && run.exit.offered.None? then
      Left(c, run.trace, run.exit.exc) && Ran(c, planned, all, run.trials, run.trace)
    else
      && |run.trace| > 0
      && var calls, last := run.trace[..|run.trace| - 1], run.trace[|run.trace| - 1];
      && last.kind == EvalEnd && (forall x :: x in calls ==> x.kind != EvalEnd)
      && !AnyDeadly(calls) && Ran(c, planned, all, run.trials, calls)
      && (run.trials == |all| || Halted(c, planned, all, run.trials))
      && LogOf(c, scenes, calls, run.trials, if run.exit.Returned? then run.exit.log else run.exit.offered.value)
      && ExitFollows(calls, last, run.exit)
  }

  lemma EndBrackets(o: Offers, trace: seq<Call>, n: nat, reply: Reply)
    requires Bracketed(o, trace)
    requires forall x :: x in trace ==> x.trial < n
    ensures Bracketed(o, trace + [Call(EvalEnd, n, reply)])
  {
    hide Count;
    var last := Call(EvalEnd, n, reply);
    var whole := trace + [last];
    forall i | 0 <= i < |whole| && whole[i].kind == Rollout
      ensures Guarded(o, whole, i)
    {
      assert whole[..i] == trace[..i];
      assert Guarded(o, trace, i);
    }
    Single(last);
    forall m: nat
      ensures ParkedOnce(o, whole, m)
    {
      Join(trace, [last], m);
      if m == n {
        NoneHere(trace, n);
      } else {
        NoneHere([last], m);
        assert ParkedOnce(o, trace, m);
      }
    }
  }

  /** The status rules applied once every scene has run. */
  function FinalStatus(l: Ledger): Status {
    if l.status == Success && ((l.totalTrials > 0 && l.erroredTrials == l.totalTrials) || l.ungraded > 0)
    then Status.Error else l.status
  }

  /** Every scene that was run is in the samples; all but the last one are complete. */
  ghost predicate Sampled(c: Config, scenes: seq<Scene>, l: Ledger, samples: seq<Sample>) {
    && |samples| <= |scenes| && (forall i :: 0 <= i < |samples| ==> Faithful(c.offers, scenes[i], samples[i]))
    && (forall i :: 0 <= i < |samples| - 1 ==> |samples[i].rows| == |scenes[i].trials|)
    && (l.status == Success ==>
          |samples| == |scenes|
          && (samples != [] ==> |samples[|samples| - 1].rows| == |scenes[|samples| - 1].trials|))
  }

  lemma LogHolds(c: Config, scenes: seq<Scene>, trace: seq<Call>, trials: nat, l: Ledger, samples: seq<Sample>)
    requires Ledgered(c, |scenes| * c.epochs, trace, l, AllRows(samples), IsBroken(samples))
    requires Sampled(c, scenes, l, samples)
    requires trials <= |AllTrials(scenes)| && |AllRows(samples)| == RecordedOf(c.offers, AllTrials(scenes), trials)
    ensures LogOf(c, scenes, trace, trials, Log(FinalStatus(l), l.totalTrials, l.erroredTrials, l.abstentions, samples))
  {
    CountBound(AllRows(samples), IsErrored());
  }

  lemma RanMeans(c: Config, planned: nat, all: seq<Planned>, k: nat, trace: seq<Call>)
    requires Ran(c, planned, all, k, trace)
    ensures k <= |all|
  {
  }

  /** Offers the log to the sinks, then raises what was recorded during the run; `n` trials were begun. */
  method Finish(c: Config, scenes: seq<Scene>, n: nat, evalEnd: Hook, trace: seq<Call>, l: Ledger, samples: seq<Sample>)
    returns (run: Run)
    requires Ledgered(c, |scenes| * c.epochs, trace, l, AllRows(samples), IsBroken(samples))
    requires forall x :: x in trace ==> x.trial < n
    requires Sampled(c, scenes, l, samples)
    requires Ran(c, |scenes| * c.epochs, AllTrials(scenes), n, trace)
    requires n == |AllTrials(scenes)| || Halted(c, |scenes| * c.epochs, AllTrials(scenes), n)
    requires |AllRows(samples)| == RecordedOf(c.offers, AllTrials(scenes), n)
    ensures run.trace == trace + [Call(EvalEnd, n, evalEnd.Reply())]
    ensures Concluded(c, scenes, run)
  {
    hide *;
    RanMeans(c, |scenes| * c.epochs, AllTrials(scenes), n, trace);
    LedgerMeans(c, |scenes| * c.epochs, trace, l, AllRows(samples), IsBroken(samples));
    LogHolds(c, scenes, trace, n, l, samples);
    var log := Log(FinalStatus(l), l.totalTrials, l.erroredTrials, l.abstentions, samples);
    var last := Call(EvalEnd, n, evalEnd.Reply());
    var exit := RaiseRecorded(n, evalEnd, trace, l, log);
    run := Run(trace + [last], exit, n);
    Concludes(c, scenes, trace, last, run, log);
  }

  /** What was recorded during the run is raised once the log was offered. */
  method RaiseRecorded(n: nat, evalEnd: Hook, ghost trace: seq<Call>, l: Ledger, log: Log) returns (exit: Exit)
    requires l.halt == FirstFaulty(trace) && (l.cancelled.Some? <==> Has(trace, IsKeyed()))
    requires l.cancelled.Some? ==> l.cancelled.value.Cancel? && RaisedIn(trace, l.cancelled.value)
    ensures ExitFollows(trace, Call(EvalEnd, n, evalEnd.Reply()), exit)
    ensures if exit.Returned? then exit.log == log else exit.offered == Some(log)
  {
    hide Count, FirstFaulty;
    exit := Returned(log);
    if evalEnd.Raises? && evalEnd.exc.Keyboard() {
      exit := Leaves(evalEnd.exc, Some(log));
    } else if l.cancelled.Some? {
      exit := Leaves(l.cancelled.value, Some(log));
    } else if l.halt.Some? {
      exit := Leaves(l.halt.value, Some(log));
    } else if evalEnd.Raises? {
      exit := Leaves(evalEnd.exc, Some(log));
    }
  }

  lemma Concludes(c: Config, scenes: seq<Scene>, trace: seq<Call>, last: Call, run: Run, log: Log)
    requires run.trace == trace + [last] && last.kind == EvalEnd && forall x :: x in trace ==> x.kind != EvalEnd
    requires !AnyDeadly(trace) && Ran(c, |scenes| * c.epochs, AllTrials(scenes), run.trials, trace)
    requires run.trials == |AllTrials(scenes)| || Halted(c, |scenes| * c.epochs, AllTrials(scenes), run.trials)
    requires ExitFollows(trace, last, run.exit) && LogOf(c, scenes, trace, run.trials, log)
    requires if run.exit.Returned? then run.exit.log == log else run.exit.offered == Some(log)
    ensures Concluded(c, scenes, run)
  {
    hide ExitFollows, LogOf, Ran, Halted, AllTrials, AnyDeadly;
    assert run.trace[..|run.trace| - 1] == trace;
    assert run.trace[|run.trace| - 1] == last;
  }

  lemma LedgerMeans(c: Config, planned: nat, trace: seq<Call>, l: Ledger, rows: seq<Row>, broken: bool)
    requires Ledgered(c, planned, trace, l, rows, broken)
    ensures l.halt == FirstFaulty(trace) && !AnyDeadly(trace) && forall x :: x in trace ==> x.kind != EvalEnd
    ensures l.cancelled.Some? <==> Has(trace, IsKeyed())
    ensures l.cancelled.Some? ==> l.cancelled.value.Cancel? && RaisedIn(trace, l.cancelled.value)
  {
  }

  lemma SamplePushed(samples: seq<Sample>, sample: Sample)
    ensures AllRows(samples + [sample]) == AllRows(samples) + sample.rows
    ensures IsBroken(samples + [sample]) <==> IsBroken(samples) || sample.brokenReductions != {}
  {
    var whole := samples + [sample];
    assert whole[..|whole| - 1] == samples;
    if IsBroken(samples) {
      var i :| 0 <= i < |samples| && samples[i].brokenReductions != {};
      assert whole[i].brokenReductions != {};
    }
    if sample.brokenReductions != {} {
      assert whole[|samples|].brokenReductions != {};
    }
  }

  /** Every scene so far was run to its end and recorded. */
  ghost predicate Complete(c: Config, scenes: seq<Scene>, samples: seq<Sample>) {
    && |samples| <= |scenes|
    && forall i :: 0 <= i < |samples| ==> Faithful(c.offers, scenes[i], samples[i]) && |samples[i].rows| == |scenes[i].trials|
  }

  /** One more scene, recorded unless an exception leaves. */
  method NextScene(c: Config, planned: nat, n: nat, scenes: seq<Scene>, l: Ledger, trace: seq<Call>, samples: seq<Sample>)
    returns (trace': seq<Call>, l': Ledger, samples': seq<Sample>, n': nat, end: TrialEnd)
    requires Complete(c, scenes, samples) && |samples| < |scenes| && UniqueNames(scenes[|samples|].rubrics)
    requires Underway(c, planned, trace, l, AllRows(samples), IsBroken(samples))
    requires AtTrial(c, planned, AllTrials(scenes), n, trace, AllRows(samples)) && n == |AllTrials(scenes[..|samples|])|
    requires forall x :: x in trace ==> x.trial < n
    ensures forall x :: x in trace' ==> x.trial < n'
    ensures Ran(c, planned, AllTrials(scenes), n', trace')
    ensures end.Escapes? ==> Left(c, trace', end.exc)
    ensures end.Stops? ==> Sampled(c, scenes, l', samples') && Halted(c, planned, AllTrials(scenes), n')
    ensures !end.Escapes? ==>
              && Ledgered(c, planned, trace', l', AllRows(samples'), IsBroken(samples'))
              && |AllRows(samples')| == RecordedOf(c.offers, AllTrials(scenes), n')
    ensures end.Onward? ==>
              && Underway(c, planned, trace', l', AllRows(samples'), IsBroken(samples'))
              && AtTrial(c, planned, AllTrials(scenes), n', trace', AllRows(samples'))
              && Complete(c, scenes, samples') && |samples'| == |samples| + 1
              && n' == |AllTrials(scenes[..|samples'|])|
  {
    hide Count, Ran, GoesOn, Bracketed, RecordedOf, Faithful, Left, Ledgered, Underway, AtTrial, Halted, AllTrials, AllRows,
      IsBroken, SceneTrials, SceneStatus;
    var scene, sample := scenes[|samples|], Sample("", Success, EMPTY_COLUMNS, [], {});
    TrialsOfScene(scenes, |samples|);
    trace', l', sample, n', end := RunScene(c, planned, AllTrials(scenes), n, scene, l, trace, AllRows(samples),
                                            IsBroken(samples));
    samples' := samples + [sample];
    SamplePushed(samples, sample);
    if end.Escapes? {
      return;
    }
    Extends(c, scenes, samples, sample);
  }

  lemma Extends(c: Config, scenes: seq<Scene>, samples: seq<Sample>, sample: Sample)
    requires Complete(c, scenes, samples) && |samples| < |scenes| && Faithful(c.offers, scenes[|samples|], sample)
    ensures
      var samples' := samples + [sample];
      && (forall i :: 0 <= i < |samples'| ==> Faithful(c.offers, scenes[i], samples'[i]))
      && (forall i :: 0 <= i < |samples'| - 1 ==> |samples'[i].rows| == |scenes[i].trials|)
  {
    hide Count;
    hide Faithful;
  }

  /** The outer loop: every scene until one stops the run; `n` counts the trials begun. */
  method RunScenes(c: Config, planned: nat, scenes: seq<Scene>)
    returns (trace: seq<Call>, l: Ledger, samples: seq<Sample>, n: nat, escaped: Option<Exc>)
    requires forall i :: 0 <= i < |scenes| ==> UniqueNames(scenes[i].rubrics)
    ensures forall x :: x in trace ==> x.trial < n
    ensures Ran(c, planned, AllTrials(scenes), n, trace)
    ensures escaped.Some? ==> Left(c, trace, escaped.value)
    ensures escaped.None? ==>
              && Sampled(c, scenes, l, samples)
              && Ledgered(c, planned, trace, l, AllRows(samples), IsBroken(samples))
              && |AllRows(samples)| == RecordedOf(c.offers, AllTrials(scenes), n)
              && (n == |AllTrials(scenes)| || Halted(c, planned, AllTrials(scenes), n))
  {
    hide Count, Ran, GoesOn, Bracketed, RecordedOf, Faithful, Left, Ledgered;
    trace, l, samples, n, escaped := [], FIRST_LEDGER, [], 0, None;
    Untouched(c, planned, AllTrials(scenes));
    assert scenes[..0] == [];
    while |samples| < |scenes|
      invariant Underway(c, planned, trace, l, AllRows(samples), IsBroken(samples))
      invariant AtTrial(c, planned, AllTrials(scenes), n, trace, AllRows(samples))
      invariant |samples| <= |scenes| && n == |AllTrials(scenes[..|samples|])|
      invariant forall x :: x in trace ==> x.trial < n
      invariant Complete(c, scenes, samples)
    {
      var end;
      trace, l, samples, n, end := NextScene(c, planned, n, scenes, l, trace, samples);
      if end.Escapes? {
        escaped := Some(end.exc);
        return;
      }
      if end.Stops? {
        return;
      }
    }
    assert scenes[..|samples|] == scenes;
  }

  lemma Untouched(c: Config, planned: nat, all: seq<Planned>)
    ensures Underway(c, planned, [], FIRST_LEDGER, [], false) && AtTrial(c, planned, all, 0, [], [])
  {
  }

  /** The run: the scenes, then the log. Every scene is run for the same number of epochs, and no two
      rubrics of a scene share a name. */
  method RunEval(c: Config, scenes: seq<Scene>, evalEnd: Hook) returns (run: Run)
    requires forall i :: 0 <= i < |scenes| ==> |scenes[i].trials| == c.epochs && UniqueNames(scenes[i].rubrics)
    ensures Bracketed(c.offers, run.trace)
    ensures Concluded(c, scenes, run)
  {
    var trace, l, samples, n, escaped := RunScenes(c, |scenes| * c.epochs, scenes);
    if escaped.Some? {
      run := Run(trace, Leaves(escaped.value, None), n);
      return;
    }
    run := Finish(c, scenes, n, evalEnd, trace, l, samples);
    EndBrackets(c.offers, trace, n, evalEnd.Reply());
  }
  /** The last trial that was begun loses its cancel. */
  predicate LosesCancel(c: Config, scenes: seq<Scene>, run: Run) {
    0 < run.trials <= |AllTrials(scenes)| && CancelLost(c.offers, AllTrials(scenes)[run.trials - 1].script)
  }

  lemma TraceLoses(c: Config, planned: nat, all: seq<Planned>, k: nat, trace: seq<Call>)
    requires Ran(c, planned, all, k, trace) && forall x :: x in trace ==> x.kind != EvalEnd
    ensures Lost(trace) <==> 0 < k <= |all| && CancelLost(c.offers, all[k - 1].script)
  {
    hide CancelLost, TrialCalls, Count, LastWord;
    LeftWord(trace);
    if k > 0 {
      var before, calls := TraceOf(c.offers, all, k - 1), TrialCalls(c.offers, k - 1, all[k - 1].script, all[k - 1].rubrics);
      assert trace == before + calls;
      assert GoesOn(c, planned, all, k - 1);
      assert forall x :: x in before ==> x in trace && !Deadly(x) && !Final(x) && !Keyed(x);
      LostAfter(before, calls);
      CancelIsLost(c.offers, k - 1, all[k - 1].script, all[k - 1].rubrics);
    }
  }

  /** An interrupted run always raises, and it raises a keyboard interrupt if and only if its last
      trial does not lose its cancel. */
  lemma InterruptsSurvive(c: Config, scenes: seq<Scene>, run: Run)
    requires Concluded(c, scenes, run)
    ensures Has(run.trace, IsKeyed()) ==> run.exit.Leaves? && (run.exit.exc.Keyboard() <==> !LosesCancel(c, scenes, run))
    ensures LosesCancel(c, scenes, run) ==>
              Has(run.trace, IsKeyed()) && run.exit.Leaves? && run.exit.offered.None? && !run.exit.exc.Keyboard()
  {
    var all, planned := AllTrials(scenes), |scenes| * c.epochs;
    hide AllTrials, LogOf, CancelLost, TraceOf, GoesOn, Bracketed, Count;
    var offered := !(run.exit.Leaves? && run.exit.offered.None?);
    var calls := if offered then run.trace[..|run.trace| - 1] else run.trace;
    TraceLoses(c, planned, all, run.trials, calls);
    LeftWord(calls);
    KeyedMeans(calls);
    if offered {
      var last := run.trace[|run.trace| - 1];
      assert run.trace == calls + [last];
      KeyedMeans([last]);
      Join(calls, [last], 0);
      OneCall(last);
    }
  }

  lemma KeyedMeans(calls: seq<Call>)
    ensures Has(calls, IsKeyed()) <==> AnyKeyed(calls)
  {
    HasMeans(calls, IsKeyed());
  }
  /** A trial that leaves no record made a call that ends the run. */
  lemma UnrecordedEndsRun(o: Offers, n: nat, s: TrialScript, rubrics: seq<Rubric>)
    requires !LeavesRecord(o, s)
    ensures AnyDeadly(TrialCalls(o, n, s, rubrics)) || AnyFinal(TrialCalls(o, n, s, rubrics))
  {
    if !Reached(o, s) {
      CheckFails(o, n, s);
    } else {
      var plan, rolled := BodyPlan(o, n, s, rubrics), Call(Rollout, n, s.rollout.Reply());
      RolloutIsPlanned(o, n, s, rubrics);
      assert Deadly(rolled) || Final(rolled);
      hide BodyPlan, BeforeCalls, Deadly, Final;
      var tail := if AnyKeyed(Cut(plan)) then [] else ParkCalls(o, n, s.park);
      PlanEndsRun(BeforeCalls(o, n, s), plan, tail, rolled);
    }
  }

  lemma RolloutIsPlanned(o: Offers, n: nat, s: TrialScript, rubrics: seq<Rubric>)
    requires Started(o, s)
    ensures Call(Rollout, n, s.rollout.Reply()) in BodyPlan(o, n, s, rubrics)
  {
    hide CapturePlan, StartPlan, SinkPlan;
    var rolled := Call(Rollout, n, s.rollout.Reply());
    assert rolled in RollPlan(n, s);
    assert rolled in StartPlan(o, n, s) + RollPlan(n, s);
    assert rolled in RunPlan(o, n, s);
  }

  lemma PlanEndsRun(before: seq<Call>, plan: seq<Call>, tail: seq<Call>, c: Call)
    requires c in plan && (Deadly(c) || Final(c))
    ensures AnyDeadly(before + Cut(plan) + tail) || AnyFinal(before + Cut(plan) + tail)
  {
    hide Deadly, Final, FirstFaulty, DeadlyExc;
    CutMeans(plan);
    AnyConcat(before, Cut(plan));
    AnyConcat(before + Cut(plan), tail);
  }

  /** A check or a home() that keeps the trial from being reached is such a call. */
  lemma CheckFails(o: Offers, n: nat, s: TrialScript)
    requires !Reached(o, s)
    ensures AnyFinal(BeforeCalls(o, n, s))
  {
    var calls := BeforeCalls(o, n, s);
    if o.health && !s.health.Passed? {
      assert Call(Health, n, s.health) in calls;
    } else if o.ready && !s.ready.Passed? {
      assert Call(Ready, n, s.ready) in calls;
    } else {
      assert Call(Home, n, s.home.Reply()) in calls;
    }
  }

  /** The log a run delivers, if any. */
  function Delivered(exit: Exit): Option<Log> {
    if exit.Returned? then Some(exit.log) else exit.offered
  }

  /** The calls of the trials of a run: all but the sinks' last hook. */
  function CallsOf(run: Run): seq<Call> {
    if Delivered(run.exit).None? || run.trace == [] then run.trace else run.trace[..|run.trace| - 1]
  }

  /** The run delivers a log that records every planned trial. */
  predicate RecordsAll(scenes: seq<Scene>, run: Run) {
    && run.trials == |AllTrials(scenes)|
    && match Delivered(run.exit)
       case None => false
       case Some(log) => |AllRows(log.samples)| == |AllTrials(scenes)|
  }

  /** No trial is dropped: unless some call's reply ends the run, or too many trials failed, the run
      delivers a log that records every planned trial. */
  lemma EveryTrialIsRecorded(c: Config, scenes: seq<Scene>, run: Run)
    requires !AnyDeadly(CallsOf(run)) && !AnyFinal(CallsOf(run))
    requires !ShouldFail(c.failOn, Count(CallsOf(run), IsFailure()), |scenes| * c.epochs)
    requires Concluded(c, scenes, run)
    ensures RecordsAll(scenes, run)
  {
    hide AllTrials, AllRows, LogOf, Ran, Halted, Bracketed, Count, ShouldFail, ExitFollows, RecordedOf, AnyDeadly, AnyFinal;
    var all, k, calls := AllTrials(scenes), run.trials, CallsOf(run);
    AllBegun(c, |scenes| * c.epochs, all, k, calls);
    LogCounts(c, scenes, calls, k, Delivered(run.exit).GetOr(Log(Success, 0, 0, map[], [])));
  }

  lemma LogCounts(c: Config, scenes: seq<Scene>, calls: seq<Call>, trials: nat, log: Log)
    ensures
      LogOf(c, scenes, calls, trials, log)
      ==>
        trials <= |AllTrials(scenes)| && |AllRows(log.samples)| == RecordedOf(c.offers, AllTrials(scenes), trials)
  {
  }

  lemma AllBegun(c: Config, planned: nat, all: seq<Planned>, k: nat, trace: seq<Call>)
    requires Ran(c, planned, all, k, trace) && !AnyDeadly(trace) && !AnyFinal(trace)
    requires !ShouldFail(c.failOn, Count(trace, IsFailure()), planned)
    ensures !Halted(c, planned, all, k) && RecordedOf(c.offers, all, k) == k
  {
    hide TrialCalls, Count, LeavesRecord;
    if k > 0 && !LeavesRecord(c.offers, all[k - 1].script) {
      UnrecordedEndsRun(c.offers, k - 1, all[k - 1].script, all[k - 1].rubrics);
      CutConcat(TraceOf(c.offers, all, k - 1), TrialCalls(c.offers, k - 1, all[k - 1].script, all[k - 1].rubrics));
    }
  }
}
