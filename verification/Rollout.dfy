/**
 The control loop of one trial: poll the operator, ask the action manager, check and review the action,
 step the embodiment, and record all of it.

 Every hook is an input: a script says for every step what the operator's poll, the policy, the
 triggers, the guard, the embodiment, the sinks and the frame store would do if they were called.
 */
module Rollout {
  import opened Basics
  import Guards
  import opened ActionManagers
  import Console
  import Ensembling

  // ---------------------------------------------------------------- what can happen

  datatype Error = Harness(id: nat) | PolicyError | EmbodimentFault | SafetyAbort | CancelledTrial

  /** How the call ends; `Foreign` is an exception of a sink or the frame store, passed through. */
  datatype Outcome = Returned | Raised(error: Error) | Foreign(fault: Fault)

  datatype PollReply =
    | Polled(messages: seq<string>, sources: seq<string>, end: Option<Console.EndRequest>)
    | PollRaises(fault: Fault)

  datatype GuardReply = Approves | Rewrites(action: Step, detail: seq<string>) | GuardRaises(fault: Fault)

  datatype StepReply =
    | Stepped(obs: nat, terminated: bool, truncated: bool, reason: Option<string>)
    | StepRaises(fault: Fault)

  datatype ResetReply = Observed(obs: nat) | ResetRaises(fault: Fault)

  datatype Script = Script(
    policyReset: Option<Fault>, reset: ResetReply, begin: Option<Fault>, poll: nat -> PollReply,
    act: nat -> ActReply, custom: (nat, nat) -> TriggerReply, guard: nat -> GuardReply,
    step: nat -> StepReply, log: nat -> Option<Fault>, frame: nat -> Option<Fault>)

  datatype Trial = Trial(maxSteps: nat, dim: nat, operator: bool, declared: set<string>, storesFrames: bool, kind: Kind)
  {
    predicate Valid() {
      maxSteps >= 1 && kind.Valid()
    }
  }

  datatype End =
    | OperatorEnd
    | Terminated(reason: Option<string>)
    | Truncated(why: string)
    | ByPolicy(terminal: Termination)
    | Horizon

  datatype Event =
    | Reset
    | Said(message: Message)
    | Verdict(t: nat, verdict: string, note: Option<string>)
    | Replanned(replan: Replan)
    | Inferred(t: nat, inference: Inference)
    | Modified(approval: Approval)
    | Walked(t: nat, terminated: bool, truncated: bool)
    | PolicyEnded(t: nat, terminal: Termination)
    | Failed(at: int, error: Error)

  /** One step of the trajectory: what was seen, done and seen next. */
  datatype StepRecord = StepRecord(t: nat, obs: nat, action: Step, result: nat)

  /** The record; `requested` are the actions before review, `polled` counts the steps in which the operator
      was heard, `reviewed` the reviews passed. */
  datatype Record = Record(
    events: seq<Event>, steps: seq<StepRecord>, requested: seq<Step>, polled: nat, reviewed: nat, frames: seq<nat>,
    end: Option<End>, failed: Option<Error>, judgement: Option<string>, note: Option<string>, unstepped: Option<nat>)

  // ---------------------------------------------------------------- reading a transcript

  function Project<T>(events: seq<Event>, f: Event -> Option<T>): seq<T> {
    if events == [] then []
    else
      var last := f(events[|events| - 1]);
      Project(events[..|events| - 1], f) + (if last.Some? then [last.value] else [])
  }

  function ApprovalIn(e: Event): Option<Approval> {
    if e.Modified? then Some(e.approval) else None
  }

  function MessageIn(e: Event): Option<Message> {
    if e.Said? then Some(e.message) else None
  }

  function ReplanIn(e: Event): Option<Replan> {
    if e.Replanned? then Some(e.replan) else None
  }

  function InferenceIn(e: Event): Option<(nat, Inference)> {
    if e.Inferred? then Some((e.t, e.inference)) else None
  }

  function FailureIn(e: Event): Option<(int, Error)> {
    if e.Failed? then Some((e.at, e.error)) else None
  }

  function WalkIn(e: Event): Option<(nat, bool, bool)> {
    if e.Walked? then Some((e.t, e.terminated, e.truncated)) else None
  }

  lemma ProjectPush<T>(events: seq<Event>, e: Event, f: Event -> Option<T>)
    ensures Project(events + [e], f) == Project(events, f) + (if f(e).Some? then [f(e).value] else [])
    ensures f(e).None? ==> Project(events + [e], f) == Project(events, f)
  {
    assert (events + [e])[..|events|] == events;
  }

  /** The replans that led to a useful call. */
  function UsefulReplans(asked: seq<Asked>): seq<Replan> {
    if asked == [] then []
    else
      var last := asked[|asked| - 1];
      UsefulReplans(asked[..|asked| - 1]) + (if last.replan.Some? && last.reply.Useful() then [last.replan.value] else [])
  }

  /** The useful calls, with the steps they were made at. */
  function UsefulCalls(base: Option<Settings>, asked: seq<Asked>): seq<(nat, Inference)> {
    if asked == [] then []
    else
      var last := asked[|asked| - 1];
      UsefulCalls(base, asked[..|asked| - 1])
      + (if last.reply.Useful() then [(last.t, InferenceOf(base, last.reply.chunk))] else [])
  }

  /** The events tell the store's approvals and messages, the useful replans and the useful calls. */
  ghost predicate Transcribed(base: Option<Settings>, approvals: seq<Approval>, messages: seq<Message>,
                              events: seq<Event>, asked: seq<Asked>)
  {
    && Project(events, ApprovalIn) == approvals
    && Project(events, MessageIn) == messages
    && Project(events, ReplanIn) == UsefulReplans(asked)
    && Project(events, InferenceIn) == UsefulCalls(base, asked)
  }

  // ---------------------------------------------------------------- feedback

  /** All the approvals told to the policy, call after call. */
  function Told(asked: seq<Asked>): seq<Approval> {
    if asked == [] then [] else Told(asked[..|asked| - 1]) + asked[|asked| - 1].approvals
  }

  function ToldMessages(asked: seq<Asked>): seq<Message> {
    if asked == [] then [] else ToldMessages(asked[..|asked| - 1]) + asked[|asked| - 1].messages
  }

  /** The approvals of the steps before `t`. */
  function Earlier(approvals: seq<Approval>, t: nat): seq<Approval> {
    if approvals == [] then []
    else
      var last := approvals[|approvals| - 1];
      Earlier(approvals[..|approvals| - 1], t) + (if last.t < t then [last] else [])
  }

  /** The messages polled up to step `t`. */
  function UpTo(messages: seq<Message>, t: nat): seq<Message> {
    if messages == [] then []
    else
      var last := messages[|messages| - 1];
      UpTo(messages[..|messages| - 1], t) + (if last.t <= t then [last] else [])
  }

  /**
   Exactly-once feedback: the calls of the policy were told, in order, exactly the approvals made
   before the last call and the messages polled up to it.
   */
  ghost predicate FedOnce(approvals: seq<Approval>, messages: seq<Message>, asked: seq<Asked>) {
    && Told(asked) == (if asked == [] then [] else Earlier(approvals, asked[|asked| - 1].t))
    && ToldMessages(asked) == (if asked == [] then [] else UpTo(messages, asked[|asked| - 1].t))
  }

  /** The store's two indices mark what was told. */
  ghost predicate Marks(b: Book, asked: seq<Asked>) {
    && b.approvalsTold <= |b.approvals| && Told(asked) == b.approvals[..b.approvalsTold]
    && b.messagesTold <= |b.messages| && ToldMessages(asked) == b.messages[..b.messagesTold]
  }

  lemma EarlierPush(approvals: seq<Approval>, x: Approval, t: nat)
    ensures Earlier(approvals + [x], t) == Earlier(approvals, t) + (if x.t < t then [x] else [])
    ensures x.t >= t ==> Earlier(approvals + [x], t) == Earlier(approvals, t)
  {
    assert (approvals + [x])[..|approvals|] == approvals;
  }

  lemma {:induction false} EarlierAll(approvals: seq<Approval>, t: nat)
    requires forall a :: a in approvals ==> a.t < t
    ensures Earlier(approvals, t) == approvals
  {
    if approvals != [] {
      var front, last := approvals[..|approvals| - 1], approvals[|approvals| - 1];
      assert approvals == front + [last] && last in approvals;
      EarlierAll(front, t);
    }
  }

  lemma UpToPush(messages: seq<Message>, x: Message, t: nat)
    ensures UpTo(messages + [x], t) == UpTo(messages, t) + (if x.t <= t then [x] else [])
    ensures x.t > t ==> UpTo(messages + [x], t) == UpTo(messages, t)
  {
    assert (messages + [x])[..|messages|] == messages;
  }

  lemma {:induction false} UpToAll(messages: seq<Message>, t: nat)
    requires forall m :: m in messages ==> m.t <= t
    ensures UpTo(messages, t) == messages
  {
    if messages != [] {
      var front, last := messages[..|messages| - 1], messages[|messages| - 1];
      assert messages == front + [last] && last in messages;
      UpToAll(front, t);
    }
  }

  lemma ToldPush(asked: seq<Asked>, x: Asked)
    ensures Told(asked + [x]) == Told(asked) + x.approvals
    ensures ToldMessages(asked + [x]) == ToldMessages(asked) + x.messages
  {
    assert (asked + [x])[..|asked|] == asked;
  }

  lemma UsefulPush(base: Option<Settings>, asked: seq<Asked>, x: Asked)
    ensures
      UsefulReplans(asked + [x])
      == UsefulReplans(asked) + (if x.replan.Some? && x.reply.Useful() then [x.replan.value] else [])
    ensures
      UsefulCalls(base, asked + [x])
      == UsefulCalls(base, asked) + (if x.reply.Useful() then [(x.t, InferenceOf(base, x.reply.chunk))] else [])
  {
    assert (asked + [x])[..|asked|] == asked;
  }

  /** Everything the policy has not been told yet. */
  function Untold(operator: bool, b: Book): Shown
    requires b.approvalsTold <= |b.approvals| && b.messagesTold <= |b.messages|
  {
    Shown(b.approvals[b.approvalsTold..], if operator then b.messages[b.messagesTold..] else [])
  }

  /** A call told everything that is untold leaves nothing untold. */
  lemma AskTellsAll(operator: bool, b: Book, asked: seq<Asked>, x: Asked)
    requires Marks(b, asked) && (!operator ==> b.messages == [])
    requires x.approvals == Untold(operator, b).approvals && x.messages == Untold(operator, b).messages
    requires forall a :: a in b.approvals ==> a.t < x.t
    requires forall m :: m in b.messages ==> m.t <= x.t
    ensures Told(asked + [x]) == b.approvals == Earlier(b.approvals, x.t)
    ensures ToldMessages(asked + [x]) == b.messages == UpTo(b.messages, x.t)
  {
    hide Told, ToldMessages, Earlier, UpTo;
    ToldPush(asked, x);
    EarlierAll(b.approvals, x.t);
    UpToAll(b.messages, x.t);
    SplitWhole(b.approvals, b.approvalsTold);
    SplitWhole(b.messages, b.messagesTold);
    ConcatEmpty(b.messages);
  }

  // ---------------------------------------------------------------- the trajectory

  predicate WellFormed(a: Step, dim: nat) {
    |a.data| == dim && Guards.AllFinite(a.data)
  }

  function Reviewed(reply: GuardReply, a: Step): Step {
    if reply.Rewrites? then reply.action else a
  }

  function StopOf(a: Step): Option<Termination> {
    if a.terminal.Some? then a.terminal else a.stop
  }

  /** The approvals of the first `n` reviews: one for each action the guard changed. */
  function ApprovalsUpTo(guard: nat -> GuardReply, n: nat): (r: seq<Approval>)
    ensures forall a :: a in r ==> a.t < n
  {
    if n == 0 then []
    else
      var reply := guard(n - 1);
      ApprovalsUpTo(guard, n - 1) + (if reply.Rewrites? then [Approval(n - 1, reply.detail)] else [])
  }

  /** What the first `n` steps reported. */
  function Walks(step: nat -> StepReply, n: nat): seq<(nat, bool, bool)> {
    if n == 0 then []
    else
      var reply := step(n - 1);
      Walks(step, n - 1) + [(n - 1, reply.Stepped? && reply.terminated, reply.Stepped? && reply.truncated)]
  }

  /** Step `i` is aligned: it saw what the step before it led to, and did what was requested and approved. */
  ghost predicate AlignedAt(trial: Trial, script: Script, r: Record, i: nat)
    requires i < |r.steps| <= |r.requested|
  {
    var s := r.steps[i];
    && s.t == i && script.reset.Observed? && s.obs == (if i == 0 then script.reset.obs else r.steps[i - 1].result)
    && WellFormed(r.requested[i], trial.dim) && !script.guard(i).GuardRaises?
    && s.action == Reviewed(script.guard(i), r.requested[i]) && WellFormed(s.action, trial.dim)
    && script.step(i).Stepped? && s.result == script.step(i).obs
  }

  function Naturals(n: nat): seq<nat> {
    seq(n, i => i)
  }

  ghost predicate Trajectory(trial: Trial, script: Script, r: Record) {
    && |r.steps| <= r.reviewed <= |r.requested| <= |r.steps| + 1
    && (forall i :: 0 <= i < |r.steps| ==> AlignedAt(trial, script, r, i))
    && (r.requested != [] && trial.storesFrames ==> |r.frames| == |r.steps| + 1)
    && r.frames == Naturals(|r.frames|)
  }

  /** The last call of the policy made by step `i`. */
  function Latest(asked: seq<Asked>, i: nat): Option<Asked> {
    if asked == [] then None
    else
      var last := asked[|asked| - 1];
      if last.t <= i then Some(last) else Latest(asked[..|asked| - 1], i)
  }

  /** Request `i` is the action at index i - start of the latest chunk, its values smoothed perhaps. */
  ghost predicate IndexAt(k: Kind, s: Settings, asked: seq<Asked>, i: nat, a: Step) {
    && Latest(asked, i).Some?
    && var call := Latest(asked, i).value;
       && call.reply.Produced? && call.t <= i < call.t + |Taken(s, call.reply.chunk)|
       && var planned := Taken(s, call.reply.chunk)[i - call.t];
          && a.(data := planned.data) == planned && (k.Default? ==> a == planned)
  }

  ghost predicate Played(k: Kind, asked: seq<Asked>, requested: seq<Step>) {
    k.Base().Some? ==> forall i :: 0 <= i < |requested| ==> IndexAt(k, k.Base().value, asked, i, requested[i])
  }

  lemma PlayedAsk(k: Kind, asked: seq<Asked>, more: seq<Asked>, requested: seq<Step>)
    requires Played(k, asked, requested) && |more| <= 1 && (more != [] ==> more[0].t >= |requested|)
    ensures Played(k, asked + more, requested)
  {
    hide Taken;
    if more == [] {
      ConcatEmpty(asked);
    } else {
      assert (asked + more)[..|asked|] == asked;
      forall i: nat | i < |requested|
        ensures Latest(asked + more, i) == Latest(asked, i)
      {
      }
    }
  }

  lemma PlayedAnyway(k: Kind, asked: seq<Asked>, requested: seq<Step>)
    ensures k.Base().None? ==> Played(k, asked, requested)
  {
  }

  lemma PlayedRequest(k: Kind, asked: seq<Asked>, requested: seq<Step>, a: Step)
    requires Played(k, asked, requested) && k.Base().Some?
    requires PlaysFor(k, k.Base().value, asked, |requested|, a)
    ensures Played(k, asked, requested + [a])
  {
    hide Taken;
    var raw :| PlaysIndex(k.Base().value, asked, |requested|, a.(data := raw)) && (k.Default? ==> raw == a.data);
    assert a.(data := raw).(data := a.data) == a;
    assert IndexAt(k, k.Base().value, asked, |requested|, a);
    forall i | 0 <= i < |requested + [a]|
      ensures IndexAt(k, k.Base().value, asked, i, (requested + [a])[i])
    {
    }
  }

  // ---------------------------------------------------------------- the operator

  /** The operator's console still works when step `t` begins: it began, and no poll has raised. */
  predicate ConsoleOn(trial: Trial, script: Script, t: nat) {
    if t == 0 then trial.operator && script.begin.None?
    else ConsoleOn(trial, script, t - 1) && script.poll(t - 1).Polled?
  }

  function SourceAt(sources: seq<string>, i: nat): string {
    if i < |sources| then sources[i] else "console"
  }

  /** What a poll says at step `t`: its messages in order, each with its source. */
  function SaidAt(reply: PollReply, t: nat): seq<Message> {
    if reply.PollRaises? then []
    else
      seq(|reply.messages|, i requires 0 <= i < |reply.messages|
        => Message(t, reply.messages[i], SourceAt(reply.sources, i)))
  }

  /** What the operator said in the first `n` steps: each step's poll, as long as the console works. */
  function SaidUpTo(trial: Trial, script: Script, n: nat): seq<Message> {
    if n == 0 then []
    else
      SaidUpTo(trial, script, n - 1)
      + (if ConsoleOn(trial, script, n - 1) then SaidAt(script.poll(n - 1), n - 1) else [])
  }

  predicate EndRequested(trial: Trial, script: Script, t: nat) {
    ConsoleOn(trial, script, t) && script.poll(t).Polled? && script.poll(t).end.Some?
  }

  /** The store holds what the operator said so far, message for message, and every reply is the policy's. */
  ghost predicate Heard(trial: Trial, script: Script, messages: seq<Message>, asked: seq<Asked>, r: Record) {
    && |r.steps| <= r.polled <= |r.steps| + 1 && messages == SaidUpTo(trial, script, r.polled)
    && (|r.requested| > |r.steps| || (asked != [] && asked[|asked| - 1].t >= |r.steps|) ==> r.polled == |r.steps| + 1)
    && forall x :: x in asked ==> x.reply == script.act(x.t)
  }

  // ---------------------------------------------------------------- which hook failed

  /** What an exception becomes: the harness's own errors pass, others are blamed on the component. */
  function Blame(fault: Fault, component: Error): Error {
    match fault
    case Typed(id) => Harness(id)
    case Generic(_) => component
    case Keyboard => CancelledTrial
  }

  /** An exception of a sink or of the frame store is not blamed on anything. */
  function Sunk(fault: Fault): Outcome {
    if fault.Keyboard? then Raised(CancelledTrial) else Foreign(fault)
  }

  /** The first failure before any step. A console that fails to begin is switched off. */
  function Opening(trial: Trial, script: Script): Option<Outcome> {
    if script.policyReset.Some? then Some(Raised(Blame(script.policyReset.value, PolicyError)))
    else if script.reset.ResetRaises? then Some(Raised(Blame(script.reset.fault, EmbodimentFault)))
    else if trial.operator && script.begin.Some? && script.begin.value.Keyboard? then Some(Raised(CancelledTrial))
    else if trial.storesFrames && script.frame(0).Some? then Some(Sunk(script.frame(0).value))
    else None
  }

  /** A poll that fails switches the console off, unless it was interrupted. */
  function Polling(trial: Trial, script: Script, t: nat): Option<Outcome> {
    if ConsoleOn(trial, script, t) && script.poll(t).PollRaises? && script.poll(t).fault.Keyboard?
    then Some(Raised(CancelledTrial)) else None
  }

  predicate Declared(trial: Trial, a: Step) {
    a.terminal.Some? ==> a.terminal.value.kind in trial.declared
  }

  /** The first failure of step `t` once its action was chosen: the policy answers for the action, the
      guard for what it makes of it, the embodiment for the step. */
  function Acting(trial: Trial, script: Script, a: Step, t: nat): Option<Outcome> {
    if !WellFormed(a, trial.dim) || !Declared(trial, a) then Some(Raised(PolicyError))
    else if script.guard(t).GuardRaises? then Some(Raised(Blame(script.guard(t).fault, SafetyAbort)))
    else if !WellFormed(Reviewed(script.guard(t), a), trial.dim) then Some(Raised(SafetyAbort))
    else if script.step(t).StepRaises? then Some(Raised(Blame(script.step(t).fault, EmbodimentFault)))
    else if script.log(t).Some? then Some(Sunk(script.log(t).value))
    else if trial.storesFrames && script.frame(t + 1).Some? then Some(Sunk(script.frame(t + 1).value))
    else None
  }

  /** Choosing the action of step `t` failed: the policy raised or gave nothing it may give, or, without a
      call of the policy, the first trigger that was not quiet raised. */
  ghost predicate ManagerFails(trial: Trial, script: Script, b: Book, asked: seq<Asked>, t: nat, e: Error) {
    if asked != [] && asked[|asked| - 1].t == t then
      match asked[|asked| - 1].reply
      case ActRaises(fault) => e == Blame(fault, PolicyError)
      case Produced(chunk) =>
        chunk.actions == [] && (chunk.terminal.Some? ==> chunk.terminal.value.kind !in trial.declared) && e == PolicyError
    else
      && trial.kind.Base().Some? && b.buffer != []
      && var found := Scan(trial.kind.Base().value.triggers, World(script.act, script.custom), b, t);
         found.Some? && found.value.1.TriggerRaises? && e == Blame(found.value.1.fault, PolicyError)
  }

  predicate Passes(trial: Trial, script: Script, t: nat) {
    Polling(trial, script, t).None? && !EndRequested(trial, script, t)
  }

  /** No hook failed before the first step, in the first `n` polls, or in the steps walked; and none of
      those polls asked for the end. */
  ghost predicate Clear(trial: Trial, script: Script, r: Record, n: nat)
    requires |r.steps| <= |r.requested|
  {
    && Opening(trial, script).None?
    && (forall i :: 0 <= i < n ==> Passes(trial, script, i))
    && (forall i :: 0 <= i < |r.steps| ==> Acting(trial, script, r.requested[i], i).None?)
  }

  /** The first hook that failed is what the call ends with, blamed on that hook's component. */
  ghost predicate Faults(trial: Trial, script: Script, b: Book, asked: seq<Asked>, r: Record, out: Outcome)
    requires |r.steps| <= |r.requested|
  {
    var n := |r.steps|;
    if Opening(trial, script).Some? then
      Opening(trial, script) == Some(out) && r.requested == [] && asked == [] && r.polled == 0
    else
      && Clear(trial, script, r, r.polled) && n < trial.maxSteps
      && if |r.requested| > n then Acting(trial, script, r.requested[n], n) == Some(out)
         else if r.polled == n then Polling(trial, script, n) == Some(out)
         else out.Raised? && ManagerFails(trial, script, b, asked, n, out.error)
  }

  lemma SameFaults(trial: Trial, script: Script, b: Book, asked: seq<Asked>, r: Record, r': Record, out: Outcome)
    requires r'.steps == r.steps && r'.requested == r.requested && r'.polled == r.polled && |r.steps| <= |r.requested|
    ensures Faults(trial, script, b, asked, r, out) <==> Faults(trial, script, b, asked, r', out)
  {
    hide Opening, Polling, Acting, ManagerFails, Passes;
  }

  lemma SameClear(trial: Trial, script: Script, r: Record, r': Record, n: nat)
    requires |r'.steps| == |r.steps| <= |r.requested| && r.requested <= r'.requested
    ensures Clear(trial, script, r, n) <==> Clear(trial, script, r', n)
  {
    hide Opening, Acting, Passes;
    assert forall i :: 0 <= i < |r.steps| ==> r'.requested[i] == r.requested[i];
  }

  // ---------------------------------------------------------------- how a trial ends

  /** Nothing in step `i` ends the trial. */
  predicate Continues(script: Script, requested: seq<Step>, i: nat)
    requires i < |requested|
  {
    script.step(i).Stepped? && !script.step(i).terminated && !script.step(i).truncated && StopOf(requested[i]).None?
  }

  ghost predicate AllContinue(script: Script, requested: seq<Step>, n: nat)
    requires n <= |requested|
  {
    forall i :: 0 <= i < n ==> Continues(script, requested, i)
  }

  /** Why the trial ended: the first reason that came up, the embodiment's own before the policy's. */
  ghost predicate EndsBy(trial: Trial, script: Script, r: Record, asked: seq<Asked>, end: End)
    requires |r.steps| <= |r.requested|
  {
    var n := |r.steps|;
    match end
    case OperatorEnd =>
      AllContinue(script, r.requested, n) && n < trial.maxSteps && EndRequested(trial, script, n) && r.polled == n + 1
    case Terminated(reason) =>
      && n > 0 && AllContinue(script, r.requested, n - 1) && script.step(n - 1).Stepped?
      && script.step(n - 1).terminated && reason == script.step(n - 1).reason
    case Truncated(why) =>
      && n > 0 && AllContinue(script, r.requested, n - 1) && script.step(n - 1).Stepped?
      && !script.step(n - 1).terminated && script.step(n - 1).truncated
      && why == Nonempty(script.step(n - 1).reason)
    case ByPolicy(terminal) =>
      || (&& n > 0 && AllContinue(script, r.requested, n - 1) && script.step(n - 1).Stepped?
          && !script.step(n - 1).terminated && !script.step(n - 1).truncated
          && StopOf(r.requested[n - 1]) == Some(terminal)
          && (r.requested[n - 1].terminal.Some? ==> terminal.kind in trial.declared))
      || (&& AllContinue(script, r.requested, n) && n < trial.maxSteps && terminal.kind in trial.declared
          && asked != [] && asked[|asked| - 1].t == n && asked[|asked| - 1].reply.Produced?
          && asked[|asked| - 1].reply.chunk.actions == [] && asked[|asked| - 1].reply.chunk.terminal == Some(terminal))
    case Horizon =>
      AllContinue(script, r.requested, n) && n == trial.maxSteps
  }

  function Nonempty(reason: Option<string>): string {
    if reason.Some? && reason.value != "" then reason.value else "truncated"
  }

  predicate NothingCaptured(r: Record) {
    r.judgement.None? && r.note.None? && r.unstepped.None?
  }

  /** What a trial that ended records of its end: the operator's verdict and its note, or the policy's
      terminal and, before any step, the observation it stopped on. */
  ghost predicate Captured(script: Script, r: Record, end: End)
    requires |r.steps| <= |r.requested|
  {
    var n := |r.steps|;
    match end
    case OperatorEnd =>
      && script.poll(n).Polled? && script.poll(n).end.Some? && r.unstepped.None?
      && var request := script.poll(n).end.value;
         && r.judgement == request.verdict && r.note == (if request.verdict.Some? then request.note else None)
         && (request.verdict.Some?
             ==> r.events != [] && r.events[|r.events| - 1] == Verdict(n, request.verdict.value, request.note))
    case ByPolicy(terminal) =>
      && r.judgement.None? && r.note.None?
      && r.unstepped == (if n == 0 then Some(CurrentObs(script, r)) else None)
      && r.events != [] && r.events[|r.events| - 1] == PolicyEnded(EndStep(r), terminal)
    case _ => NothingCaptured(r)
  }

  /** The step a policy's end is recorded at: the one just executed, if its action asked for it. */
  function EndStep(r: Record): nat
    requires |r.steps| <= |r.requested|
  {
    var n := |r.steps|;
    if n > 0 && StopOf(r.requested[n - 1]).Some? then n - 1 else n
  }

  /** The observation a step starts from. */
  function CurrentObs(script: Script, r: Record): nat {
    if r.steps != [] then r.steps[|r.steps| - 1].result
    else if script.reset.Observed? then script.reset.obs
    else 0
  }

  /** No failure was recorded, and no reason to end has come up. */
  ghost predicate Undecided(script: Script, r: Record)
    requires |r.steps| <= |r.requested|
  {
    && r.failed.None? && r.end.None? && NothingCaptured(r)
    && Project(r.events, FailureIn) == [] && AllContinue(script, r.requested, |r.steps|)
  }

  /** How the record reads for each way the call ends; a failure is recorded once, last. */
  ghost predicate Exits(trial: Trial, script: Script, b: Book, r: Record, asked: seq<Asked>, out: Outcome)
    requires |r.steps| <= |r.requested|
  {
    match out
    case Returned =>
      && r.failed.None? && Project(r.events, FailureIn) == [] && r.end.Some?
      && EndsBy(trial, script, r, asked, r.end.value) && Captured(script, r, r.end.value)
      && Clear(trial, script, r, if r.end.value.OperatorEnd? then |r.steps| else r.polled)
    case Raised(e) =>
      && Faults(trial, script, b, asked, r, out)
      && r.failed == Some(e) && r.end.None? && NothingCaptured(r) && AllContinue(script, r.requested, |r.steps|)
      && r.events != [] && r.events[|r.events| - 1].Failed?
      && Project(r.events, FailureIn) == [(r.events[|r.events| - 1].at, e)]
      && r.events[|r.events| - 1].at == (if Opening(trial, script).Some? then -1 else |r.steps|)
    case Foreign(_) => Faults(trial, script, b, asked, r, out) && Undecided(script, r)
  }

  /** What holds of a trial at every moment. */
  ghost predicate Sound(trial: Trial, script: Script, b: Book, asked: seq<Asked>, r: Record) {
    && FedOnce(b.approvals, b.messages, asked)
    && Transcribed(trial.kind.Base(), b.approvals, b.messages, r.events, asked)
    && Trajectory(trial, script, r) && b.approvals == ApprovalsUpTo(script.guard, r.reviewed)
    && Played(trial.kind, asked, r.requested) && Project(r.events, WalkIn) == Walks(script.step, |r.steps|)
    && (trial.kind.Base().Some? ==> Balanced(trial.kind.Base().value, b, asked, |r.requested|))
    && Blended(trial.kind, b, asked)
  }

  ghost predicate Settled(trial: Trial, script: Script, b: Book, asked: seq<Asked>, r: Record, out: Outcome) {
    && Sound(trial, script, b, asked, r) && Heard(trial, script, b.messages, asked, r)
    && Exits(trial, script, b, r, asked, out)
  }

  // ---------------------------------------------------------------- the loop's invariant

  /** What holds between two hooks of a trial that goes on. */
  ghost predicate Core(trial: Trial, script: Script, b: Book, asked: seq<Asked>, r: Record) {
    && Sound(trial, script, b, asked, r) && Undecided(script, r) && Marks(b, asked)
    && (!trial.operator ==> b.messages == []) && (forall m :: m in b.messages ==> m.t <= |r.steps|)
    && b.replansSeen == |b.replans| && script.reset.Observed?
    && (trial.kind.Base().Some? ==> Kept(trial.kind.Base().value, b, asked, |r.requested|))
    && (trial.storesFrames ==> |r.frames| == |r.steps| + 1)
  }

  /** At the head of a step, */
  ghost predicate Head(trial: Trial, script: Script, b: Book, asked: seq<Asked>, r: Record) {
    && Core(trial, script, b, asked, r) && |r.requested| == r.reviewed == |r.steps| <= trial.maxSteps
    && (asked != [] ==> asked[|asked| - 1].t < |r.steps|)
  }

  /** after the manager returned an action, */
  ghost predicate Mid(trial: Trial, script: Script, b: Book, asked: seq<Asked>, r: Record) {
    && Core(trial, script, b, asked, r) && |r.requested| == r.reviewed + 1 == |r.steps| + 1 <= trial.maxSteps
    && (asked != [] ==> asked[|asked| - 1].t <= |r.steps|)
  }

  /** and after the guard reviewed it. */
  ghost predicate Late(trial: Trial, script: Script, b: Book, asked: seq<Asked>, r: Record) {
    && Core(trial, script, b, asked, r) && |r.requested| == r.reviewed == |r.steps| + 1 <= trial.maxSteps
    && (asked != [] ==> asked[|asked| - 1].t <= |r.steps|)
    && !script.guard(|r.steps|).GuardRaises? && WellFormed(r.requested[|r.steps|], trial.dim)
  }

  // ---------------------------------------------------------------- the moves

  function Failing(r: Record, at: int, e: Error): Record {
    r.(events := r.events + [Failed(at, e)], failed := Some(e))
  }

  lemma EventPush(events: seq<Event>, e: Event)
    ensures e.Modified? || Project(events + [e], ApprovalIn) == Project(events, ApprovalIn)
    ensures e.Modified? ==> Project(events + [e], ApprovalIn) == Project(events, ApprovalIn) + [e.approval]
    ensures e.Said? || Project(events + [e], MessageIn) == Project(events, MessageIn)
    ensures e.Said? ==> Project(events + [e], MessageIn) == Project(events, MessageIn) + [e.message]
    ensures e.Replanned? || Project(events + [e], ReplanIn) == Project(events, ReplanIn)
    ensures e.Replanned? ==> Project(events + [e], ReplanIn) == Project(events, ReplanIn) + [e.replan]
    ensures e.Inferred? || Project(events + [e], InferenceIn) == Project(events, InferenceIn)
    ensures e.Inferred? ==> Project(events + [e], InferenceIn) == Project(events, InferenceIn) + [(e.t, e.inference)]
    ensures e.Walked? || Project(events + [e], WalkIn) == Project(events, WalkIn)
    ensures e.Walked? ==> Project(events + [e], WalkIn) == Project(events, WalkIn) + [(e.t, e.terminated, e.truncated)]
    ensures e.Failed? || Project(events + [e], FailureIn) == Project(events, FailureIn)
    ensures e.Failed? ==> Project(events + [e], FailureIn) == Project(events, FailureIn) + [(e.at, e.error)]
  {
    ProjectPush(events, e, ApprovalIn);
    ProjectPush(events, e, MessageIn);
    ProjectPush(events, e, ReplanIn);
    ProjectPush(events, e, InferenceIn);
    ProjectPush(events, e, WalkIn);
    ProjectPush(events, e, FailureIn);
  }

  /** The same trajectory with other events in the transcript. */
  lemma SameWalk(trial: Trial, script: Script, r: Record, r': Record)
    requires Trajectory(trial, script, r)
    requires r'.steps == r.steps && r'.requested == r.requested && r'.reviewed == r.reviewed && r'.frames == r.frames
    ensures Trajectory(trial, script, r')
  {
    forall i | 0 <= i < |r'.steps|
      ensures AlignedAt(trial, script, r', i)
    {
      assert AlignedAt(trial, script, r, i);
    }
  }

  lemma FailSettles(trial: Trial, script: Script, b: Book, asked: seq<Asked>, r: Record, at: int, e: Error)
    requires Sound(trial, script, b, asked, r) && Undecided(script, r) && Heard(trial, script, b.messages, asked, r)
    requires Faults(trial, script, b, asked, r, Raised(e))
    requires at == if Opening(trial, script).Some? then -1 else |r.steps|
    ensures Settled(trial, script, b, asked, Failing(r, at, e), Raised(e))
  {
    hide Played, Project, FedOnce, Balanced, ApprovalsUpTo, AllContinue, Faults, SaidUpTo, Opening, Blended, AlignedAt,
      Walks, UsefulCalls, UsefulReplans;
    EventPush(r.events, Failed(at, e));
    SameWalk(trial, script, r, Failing(r, at, e));
    SameFaults(trial, script, b, asked, r, Failing(r, at, e), Raised(e));
  }

  lemma EndSettles(trial: Trial, script: Script, b: Book, asked: seq<Asked>, r: Record, end: End)
    requires Sound(trial, script, b, asked, r) && r.failed.None? && Project(r.events, FailureIn) == []
    requires EndsBy(trial, script, r, asked, end) && Captured(script, r, end)
    requires Heard(trial, script, b.messages, asked, r)
    requires Clear(trial, script, r, if end.OperatorEnd? then |r.steps| else r.polled)
    ensures Settled(trial, script, b, asked, r.(end := Some(end)), Returned)
  {
    hide Played, Project, FedOnce, Balanced, ApprovalsUpTo, Transcribed, AllContinue, SaidUpTo, Clear, EndRequested,
      Blended, AlignedAt, Walks, Passes;
    var r' := r.(end := Some(end));
    SameWalk(trial, script, r, r');
    SameClear(trial, script, r, r', if end.OperatorEnd? then |r.steps| else r.polled);
  }

  lemma KeptFrame(s: Settings, b: Book, b': Book, asked: seq<Asked>, t: nat)
    requires b'.buffer == b.buffer && b'.inferences == b.inferences && b'.replans == b.replans
    requires b'.chunkStart == b.chunkStart && b'.dropped == b.dropped
    ensures Kept(s, b, asked, t) ==> Kept(s, b', asked, t)
    ensures Balanced(s, b, asked, t) ==> Balanced(s, b', asked, t)
  {
  }

  lemma MessageKeeps(trial: Trial, script: Script, b: Book, asked: seq<Asked>, r: Record, m: Message)
    requires Head(trial, script, b, asked, r) && m.t == |r.steps| && trial.operator
    ensures Head(trial, script, b.(messages := b.messages + [m]), asked, r.(events := r.events + [Said(m)]))
  {
    hide Played, Project, FedOnce, Marks, Kept, Balanced, ApprovalsUpTo, Trajectory, AllContinue, UsefulCalls, UsefulReplans;
    var b', r' := b.(messages := b.messages + [m]), r.(events := r.events + [Said(m)]);
    EventPush(r.events, Said(m));
    SameWalk(trial, script, r, r');
    MessageFeeds(b, asked, m);
    if trial.kind.Base().Some? {
      KeptFrame(trial.kind.Base().value, b, b', asked, |r.requested|);
    }
  }

  lemma MessageFeeds(b: Book, asked: seq<Asked>, m: Message)
    requires FedOnce(b.approvals, b.messages, asked) && Marks(b, asked)
    requires asked != [] ==> asked[|asked| - 1].t < m.t
    ensures
      var b' := b.(messages := b.messages + [m]);
      FedOnce(b'.approvals, b'.messages, asked) && Marks(b', asked)
  {
    if asked != [] {
      UpToPush(b.messages, m, asked[|asked| - 1].t);
    }
    hide Told, ToldMessages, Earlier, UpTo;
    assert (b.messages + [m])[..b.messagesTold] == b.messages[..b.messagesTold];
  }

  // ---------------------------------------------------------------- asking the manager

  function TurnAt(trial: Trial, script: Script, b: Book, t: nat): Turn
    requires trial.Valid() && b.approvalsTold <= |b.approvals| && b.messagesTold <= |b.messages|
  {
    NextOf(trial.kind, World(script.act, script.custom), b, Untold(trial.operator, b), t)
  }

  /** The store after a call: what was shown is marked as told if the policy was called. */
  function Acknowledged(operator: bool, b: Book, acted: bool): Book {
    var told := if acted then b.(approvalsTold := |b.approvals|) else b;
    (if acted && operator then told.(messagesTold := |b.messages|) else told).(replansSeen := |b.replans|)
  }

  function ReplanEvents(replans: seq<Replan>): seq<Event> {
    seq(|replans|, i requires 0 <= i < |replans| => Replanned(replans[i]))
  }

  /** The events of a call that returned. */
  function Noted(base: Option<Settings>, events: seq<Event>, asked: seq<Asked>): seq<Event>
    requires asked != [] ==> asked[0].reply.Useful()
  {
    if asked == [] then events
    else
      events + ReplanEvents(ReplansOf(asked)) + [Inferred(asked[0].t, InferenceOf(base, asked[0].reply.chunk))]
  }

  /** What the rollout learns from one call of the manager, whichever manager it is. */
  ghost predicate Answered(trial: Trial, b: Book, asked: seq<Asked>, t: nat, turn: Turn) {
    var now, base := asked + turn.asked, trial.kind.Base();
    && |turn.asked| <= 1 && (turn.asked != [] ==> turn.asked[0].t == t)
    && (turn.asked != [] ==> (turn.reply.Returned() <==> turn.asked[0].reply.Useful()))
    && turn.book.approvals == b.approvals && turn.book.messages == b.messages && turn.book.replansSeen == |b.replans|
    && turn.book.replans == b.replans + ReplansOf(turn.asked)
    && turn.book.inferences == b.inferences + InferencesOf(base, turn.asked)
    && (turn.reply.End? ==> turn.asked != [] && IsEmptyChunk(turn.asked[0].reply, turn.reply.terminal))
    && FedOnce(b.approvals, b.messages, now) && Marks(Acknowledged(trial.operator, turn.book, turn.asked != []), now)
    && (now != [] ==> now[|now| - 1].t <= t)
    && (base.Some? ==> Balanced(base.value, turn.book, now, if turn.reply.Play? then t + 1 else t))
    && (base.Some? && turn.reply.Play?
        ==> Kept(base.value, turn.book, now, t + 1) && PlaysFor(trial.kind, base.value, now, t, turn.reply.action))
    && Blended(trial.kind, turn.book, now)
  }

  predicate IsEmptyChunk(reply: ActReply, terminal: Termination) {
    reply.Produced? && reply.chunk.actions == [] && reply.chunk.terminal == Some(terminal)
  }

  /** A call, if any, told the policy everything untold, and nothing is told twice. */
  lemma TurnAnswers(trial: Trial, script: Script, b: Book, asked: seq<Asked>, r: Record)
    requires trial.Valid() && Head(trial, script, b, asked, r)
    ensures Answered(trial, b, asked, |r.steps|, TurnAt(trial, script, b, |r.steps|))
  {
    hide Head, NextOf, Balanced, Kept, FedOnce, Marks, Feeds, Untold, ReplansOf, InferencesOf, ApprovedBefore, Acknowledged,
      Blended;
    var t := |r.steps|;
    HeadFed(trial, script, b, asked, r);
    var w, shown := World(script.act, script.custom), Untold(trial.operator, b);
    var turn := NextOf(trial.kind, w, b, shown, t);
    ManagersFeed(trial.kind, w, b, shown, t);
    FeedsMeans(trial.kind, w, b, shown, t, turn);
    FeedsOnce(trial.operator, b, asked, t, turn);
    BlendKeeps(trial.kind, w, b, shown, t, asked);
    if trial.kind.Base().Some? {
      AccountsKept(trial, script, b, asked, r, turn);
    }
  }

  /** The chunk-playing manager's accounts after the call. */
  lemma AccountsKept(trial: Trial, script: Script, b: Book, asked: seq<Asked>, r: Record, turn: Turn)
    requires trial.Valid() && Head(trial, script, b, asked, r) && trial.kind.Base().Some?
    requires b.approvalsTold <= |b.approvals| && b.messagesTold <= |b.messages| && turn == TurnAt(trial, script, b, |r.steps|)
    ensures
      var s, now := trial.kind.Base().value, asked + turn.asked;
      && Balanced(s, turn.book, now, if turn.reply.Play? then |r.steps| + 1 else |r.steps|)
      && (turn.reply.Play?
          ==> Kept(s, turn.book, now, |r.steps| + 1) && PlaysFor(trial.kind, s, now, |r.steps|, turn.reply.action))
  {
    hide Head, Kept, Balanced, NextOf, ApprovedBefore, PlaysIndex, PlaysFor, Untold;
    HeadKept(trial, script, b, asked, r);
    BaseKeeps(trial.kind, World(script.act, script.custom), b, Untold(trial.operator, b), |r.steps|, asked);
  }

  lemma FeedsMeans(k: Kind, w: World, b: Book, shown: Shown, t: nat, turn: Turn)
    requires Feeds(k, w, b, shown, t, turn)
    ensures |turn.asked| <= 1
    ensures
      turn.asked != []
      ==>
        turn.asked[0].t == t && turn.asked[0].approvals == shown.approvals && turn.asked[0].messages == shown.messages
    ensures turn.book.approvalsTold == b.approvalsTold && turn.book.messagesTold == b.messagesTold
    ensures turn.asked != [] ==> (turn.reply.Returned() <==> turn.asked[0].reply.Useful())
    ensures turn.book.approvals == b.approvals && turn.book.messages == b.messages && turn.book.replansSeen == b.replansSeen
    ensures turn.book.replans == b.replans + ReplansOf(turn.asked)
    ensures turn.book.inferences == b.inferences + InferencesOf(k.Base(), turn.asked)
    ensures turn.reply.End? ==> turn.asked != [] && IsEmptyChunk(turn.asked[0].reply, turn.reply.terminal)
  {
    hide ReplansOf, InferencesOf;
    assert turn.asked != [] ==> turn.asked[0] in turn.asked;
  }

  lemma HeadKept(trial: Trial, script: Script, b: Book, asked: seq<Asked>, r: Record)
    requires Head(trial, script, b, asked, r) && trial.kind.Base().Some?
    ensures Kept(trial.kind.Base().value, b, asked, |r.steps|) && ApprovedBefore(b, |r.steps|)
  {
  }

  lemma HeadFed(trial: Trial, script: Script, b: Book, asked: seq<Asked>, r: Record)
    requires Head(trial, script, b, asked, r)
    ensures FedOnce(b.approvals, b.messages, asked) && Marks(b, asked) && (!trial.operator ==> b.messages == [])
    ensures b.replansSeen == |b.replans| && b.approvalsTold <= |b.approvals| && b.messagesTold <= |b.messages|
    ensures (forall m :: m in b.messages ==> m.t <= |r.steps|) && (forall a :: a in b.approvals ==> a.t < |r.steps|)
    ensures asked != [] ==> asked[|asked| - 1].t < |r.steps|
    ensures Blended(trial.kind, b, asked)
  {
  }

  lemma FeedsOnce(operator: bool, b: Book, asked: seq<Asked>, t: nat, turn: Turn)
    requires FedOnce(b.approvals, b.messages, asked) && Marks(b, asked) && (!operator ==> b.messages == [])
    requires (forall m :: m in b.messages ==> m.t <= t) && (forall a :: a in b.approvals ==> a.t < t)
    requires asked != [] ==> asked[|asked| - 1].t < t
    requires turn.book.approvals == b.approvals && turn.book.messages == b.messages
    requires turn.book.approvalsTold == b.approvalsTold && turn.book.messagesTold == b.messagesTold
    requires |turn.asked| <= 1 && (turn.asked != [] ==> ShownAll(operator, b, t, turn.asked[0]))
    ensures
      var now := asked + turn.asked;
      && FedOnce(turn.book.approvals, turn.book.messages, now)
      && Marks(Acknowledged(operator, turn.book, turn.asked != []), now)
      && (now != [] ==> now[|now| - 1].t <= t)
  {
    hide Told, ToldMessages, Earlier, UpTo;
    if turn.asked == [] {
      ConcatEmpty(asked);
    } else {
      var x := turn.asked[0];
      assert turn.asked == [x];
      AskTellsAll(operator, b, asked, x);
      AllTold(operator, turn.book);
    }
  }

  /** The call was made at step `t` and shown everything untold. */
  predicate ShownAll(operator: bool, b: Book, t: nat, x: Asked)
    requires b.approvalsTold <= |b.approvals| && b.messagesTold <= |b.messages|
  {
    x.t == t && x.approvals == Untold(operator, b).approvals && x.messages == Untold(operator, b).messages
  }

  lemma AllTold(operator: bool, b: Book)
    requires !operator ==> b.messages == []
    ensures
      var now := Acknowledged(operator, b, true);
      && now.approvalsTold <= |b.approvals| && b.approvals[..now.approvalsTold] == b.approvals
      && (operator ==> now.messagesTold <= |b.messages| && b.messages[..now.messagesTold] == b.messages)
  {
  }

  /** A call that gave nothing leaves no trace in the transcript. */
  lemma UselessIsSilent(base: Option<Settings>, asked: seq<Asked>, more: seq<Asked>)
    requires |more| <= 1 && forall x :: x in more ==> !x.reply.Useful()
    ensures UsefulReplans(asked + more) == UsefulReplans(asked)
    ensures UsefulCalls(base, asked + more) == UsefulCalls(base, asked)
  {
    if more == [] {
      ConcatEmpty(asked);
    } else {
      assert more == [more[0]];
      UsefulPush(base, asked, more[0]);
      ConcatEmpty(UsefulReplans(asked));
      ConcatEmpty(UsefulCalls(base, asked));
    }
  }

  /** A reply that gives no action and no end the trial declares. */
  predicate Unusable(trial: Trial, reply: Reply) {
    match reply
    case Play(_) => false
    case End(terminal) => terminal.kind !in trial.declared
    case _ => true
  }

  function ErrorOf(reply: Reply): Error {
    if reply.Broke? then Blame(reply.fault, PolicyError) else PolicyError
  }

  /** A call of the manager that failed is one of the failures of choosing an action. */
  lemma AskBlames(trial: Trial, script: Script, b: Book, asked: seq<Asked>, t: nat, turn: Turn, b': Book)
    requires trial.Valid() && b.approvalsTold <= |b.approvals| && b.messagesTold <= |b.messages|
    requires turn == TurnAt(trial, script, b, t) && Unusable(trial, turn.reply)
    requires Answered(trial, b, asked, t, turn) && (asked != [] ==> asked[|asked| - 1].t < t)
    requires turn.asked == [] ==> b' == turn.book
    ensures ManagerFails(trial, script, b', asked + turn.asked, t, ErrorOf(turn.reply))
  {
    hide NextOf, Answered, Scan, Blame, ManagerFails, Untold;
    TurnFails(trial.kind, World(script.act, script.custom), b, Untold(trial.operator, b), t);
    AnsweredMeans(trial, b, asked, t, turn);
    if turn.asked == [] {
      ConcatEmpty(asked);
      ScanBlames(trial, script, b', asked, t, turn.reply.fault);
    } else {
      CallBlames(trial, script, b', asked, turn.asked[0], t, turn.reply);
      assert turn.asked == [turn.asked[0]];
    }
  }

  lemma CallBlames(trial: Trial, script: Script, b: Book, asked: seq<Asked>, x: Asked, t: nat, reply: Reply)
    requires x.t == t && Unusable(trial, reply)
    requires reply.Broke? ==> x.reply == ActRaises(reply.fault)
    requires reply.Empty? ==> x.reply.Produced? && x.reply.chunk.actions == [] && x.reply.chunk.terminal.None?
    requires reply.End? ==> IsEmptyChunk(x.reply, reply.terminal)
    ensures ManagerFails(trial, script, b, asked + [x], t, ErrorOf(reply))
  {
    hide Scan, Blame;
    assert (asked + [x])[|asked|] == x;
  }

  lemma ScanBlames(trial: Trial, script: Script, b: Book, asked: seq<Asked>, t: nat, fault: Fault)
    requires (asked != [] ==> asked[|asked| - 1].t < t) && trial.kind.Base().Some? && b.buffer != []
    requires
      var found := Scan(trial.kind.Base().value.triggers, World(script.act, script.custom), b, t);
      found.Some? && found.value.1 == TriggerRaises(fault)
    ensures ManagerFails(trial, script, b, asked, t, Blame(fault, PolicyError))
  {
    hide Scan, Blame;
  }

  /** A turn of the manager leaves the operator heard. */
  lemma AskHears(trial: Trial, script: Script, b: Book, asked: seq<Asked>, r: Record, turn: Turn)
    requires trial.Valid() && b.approvalsTold <= |b.approvals| && b.messagesTold <= |b.messages|
    requires turn == TurnAt(trial, script, b, |r.steps|) && Answered(trial, b, asked, |r.steps|, turn)
    requires Heard(trial, script, b.messages, asked, r) && r.polled == |r.steps| + 1
    ensures Heard(trial, script, turn.book.messages, asked + turn.asked, r)
  {
    hide NextOf, Answered, FailsOf, SaidUpTo;
    AnsweredMeans(trial, b, asked, |r.steps|, turn);
    TurnActs(trial, script, b, |r.steps|);
    assert forall x :: x in turn.asked ==> x == turn.asked[0];
  }

  lemma TurnActs(trial: Trial, script: Script, b: Book, t: nat)
    requires trial.Valid() && b.approvalsTold <= |b.approvals| && b.messagesTold <= |b.messages|
    ensures
      var turn := TurnAt(trial, script, b, t);
      turn.asked != [] ==> turn.asked[0].reply == script.act(t)
  {
    hide NextOf, Scan;
    TurnFails(trial.kind, World(script.act, script.custom), b, Untold(trial.operator, b), t);
  }

  lemma AnsweredMeans(trial: Trial, b: Book, asked: seq<Asked>, t: nat, turn: Turn)
    requires Answered(trial, b, asked, t, turn)
    ensures |turn.asked| <= 1 && (turn.asked != [] ==> turn.asked[0].t == t) && turn.book.messages == b.messages
    ensures turn.reply.End? ==> turn.asked != [] && IsEmptyChunk(turn.asked[0].reply, turn.reply.terminal)
  {
  }

  lemma AskFails(trial: Trial, script: Script, b: Book, asked: seq<Asked>, r: Record, turn: Turn)
    requires Head(trial, script, b, asked, r) && Answered(trial, b, asked, |r.steps|, turn) && !turn.reply.Returned()
    ensures Sound(trial, script, turn.book, asked + turn.asked, r) && Undecided(script, r)
  {
    hide ReplansOf, InferencesOf, Trajectory, Kept, Balanced, AllContinue, Played, Project, FedOnce, Marks, UsefulCalls, UsefulReplans;
    assert forall x :: x in turn.asked ==> x == turn.asked[0];
    PlayedAsk(trial.kind, asked, turn.asked, r.requested);
    UselessIsSilent(trial.kind.Base(), asked, turn.asked);
  }

  /** A call that returned is told in full: its replan once, and the chunk it played from. */
  lemma NotedTranscribes(base: Option<Settings>, b: Book, events: seq<Event>, asked: seq<Asked>, more: seq<Asked>)
    requires Transcribed(base, b.approvals, b.messages, events, asked) && Project(events, FailureIn) == []
    requires |more| <= 1 && (more != [] ==> more[0].reply.Useful())
    ensures
      var events' := Noted(base, events, more);
      && Transcribed(base, b.approvals, b.messages, events', asked + more)
      && Project(events', FailureIn) == [] && Project(events', WalkIn) == Project(events, WalkIn)
  {
    hide Project, UsefulReplans, UsefulCalls, ReplansOf, InferenceOf;
    if more == [] {
      ConcatEmpty(asked);
    } else {
      var x := more[0];
      assert more == [x];
      UsefulPush(base, asked, x);
      OneAsk(base, x);
      var inferred := Inferred(x.t, InferenceOf(base, x.reply.chunk));
      if x.replan.Some? {
        var replanned := Replanned(x.replan.value);
        assert ReplanEvents(ReplansOf(more)) == [replanned];
        EventPush(events, replanned);
        EventPush(events + [replanned], inferred);
      } else {
        assert ReplanEvents(ReplansOf(more)) == [];
        ConcatEmpty(events);
        ConcatEmpty(UsefulReplans(asked));
        EventPush(events, inferred);
      }
    }
  }

  /** The record after a call that returned. */
  function NotedRecord(trial: Trial, r: Record, turn: Turn): Record
    requires turn.asked != [] ==> turn.asked[0].reply.Useful()
  {
    var noted := r.(events := Noted(trial.kind.Base(), r.events, turn.asked));
    if turn.reply.Play? then noted.(requested := r.requested + [turn.reply.action]) else noted
  }

  /** The trajectory with one more request. */
  lemma RequestWalks(trial: Trial, script: Script, r: Record, action: Step)
    requires Trajectory(trial, script, r) && |r.requested| == |r.steps| && AllContinue(script, r.requested, |r.steps|)
    requires trial.storesFrames ==> |r.frames| == |r.steps| + 1
    ensures
      var r' := r.(requested := r.requested + [action]);
      Trajectory(trial, script, r') && AllContinue(script, r'.requested, |r.steps|)
  {
    var r' := r.(requested := r.requested + [action]);
    forall i | 0 <= i < |r'.steps|
      ensures AlignedAt(trial, script, r', i) && Continues(script, r'.requested, i)
    {
      assert AlignedAt(trial, script, r, i) && Continues(script, r.requested, i);
    }
  }

  lemma AskReturns(trial: Trial, script: Script, b: Book, asked: seq<Asked>, r: Record, turn: Turn)
    requires Head(trial, script, b, asked, r) && |r.steps| < trial.maxSteps
    requires Answered(trial, b, asked, |r.steps|, turn) && turn.reply.Returned()
    ensures
      && (turn.asked != [] ==> turn.asked[0].reply.Useful())
      && var b' := Acknowledged(trial.operator, turn.book, turn.asked != []);
         var r' := NotedRecord(trial, r, turn);
         && Sound(trial, script, b', asked + turn.asked, r') && Undecided(script, r')
         && (turn.reply.Play? ==> Mid(trial, script, b', asked + turn.asked, r'))
  {
    hide Trajectory, Kept, Balanced, AllContinue, Played, Project, FedOnce, Marks, Noted, ReplansOf, InferencesOf, UsefulCalls, UsefulReplans;
    var base := trial.kind.Base();
    var b', now := Acknowledged(trial.operator, turn.book, turn.asked != []), asked + turn.asked;
    var noted := r.(events := Noted(base, r.events, turn.asked));
    NotedTranscribes(base, b, r.events, asked, turn.asked);
    SameWalk(trial, script, r, noted);
    if base.Some? {
      KeptFrame(base.value, turn.book, b', now, |r.steps| + 1);
      KeptFrame(base.value, turn.book, b', now, |r.steps|);
    }
    hide Transcribed;
    PlayedAsk(trial.kind, asked, turn.asked, r.requested);
    if turn.reply.Play? {
      if base.Some? {
        PlayedRequest(trial.kind, now, r.requested, turn.reply.action);
      }
      PlayedAnyway(trial.kind, now, NotedRecord(trial, r, turn).requested);
      RequestWalks(trial, script, noted, turn.reply.action);
      PlayIsMid(trial, script, b, b', asked, now, r, NotedRecord(trial, r, turn));
    }
  }

  lemma PlayIsMid(trial: Trial, script: Script, b: Book, b': Book, asked: seq<Asked>, now: seq<Asked>, r: Record, r': Record)
    requires Head(trial, script, b, asked, r) && |r.steps| < trial.maxSteps
    requires b'.approvals == b.approvals && b'.messages == b.messages && b'.replansSeen == |b'.replans|
    requires FedOnce(b'.approvals, b'.messages, now) && Marks(b', now)
    requires now != [] ==> now[|now| - 1].t <= |r.steps|
    requires trial.kind.Base().Some? ==> Kept(trial.kind.Base().value, b', now, |r.steps| + 1)
    requires Blended(trial.kind, b', now)
    requires Transcribed(trial.kind.Base(), b'.approvals, b'.messages, r'.events, now)
    requires Project(r'.events, WalkIn) == Project(r.events, WalkIn)
    requires Project(r'.events, FailureIn) == [] && Trajectory(trial, script, r') && Played(trial.kind, now, r'.requested)
    requires |r'.requested| == |r.requested| + 1 && AllContinue(script, r'.requested, |r.steps|)
    requires r' == r.(events := r'.events, requested := r'.requested)
    ensures Mid(trial, script, b', now, r')
  {
    hide Transcribed, Trajectory, AllContinue, Played, Project, FedOnce, Marks, Balanced;
  }

  // ---------------------------------------------------------------- review and step

  function ReviewedBook(b: Book, t: nat, reply: GuardReply): Book {
    if reply.Rewrites? then b.(approvals := b.approvals + [Approval(t, reply.detail)]) else b
  }

  function ReviewedRecord(r: Record, t: nat, reply: GuardReply): Record {
    var r := r.(reviewed := r.reviewed + 1);
    if reply.Rewrites? then r.(events := r.events + [Modified(Approval(t, reply.detail))]) else r
  }

  lemma ReviewKeeps(trial: Trial, script: Script, b: Book, asked: seq<Asked>, r: Record)
    requires Mid(trial, script, b, asked, r) && !script.guard(|r.steps|).GuardRaises?
    requires WellFormed(r.requested[|r.steps|], trial.dim)
    ensures
      var t := |r.steps|;
      Late(trial, script, ReviewedBook(b, t, script.guard(t)), asked, ReviewedRecord(r, t, script.guard(t)))
  {
    var t := |r.steps|;
    var reply := script.guard(t);
    var b', r' := ReviewedBook(b, t, reply), ReviewedRecord(r, t, reply);
    ReviewWalks(trial, script, r, r');
    ReviewTranscribes(trial.kind.Base(), b, asked, r, t, reply);
    ReviewApproves(script, b, t);
    if trial.kind.Base().Some? {
      KeptFrame(trial.kind.Base().value, b, b', asked, |r.requested|);
    }
    hide ApprovalsUpTo, Trajectory, AllContinue, Project, Kept, Balanced, FedOnce, Marks, Transcribed;
    ReviewIsLate(trial, script, b, b', asked, r, r');
  }

  lemma ReviewIsLate(trial: Trial, script: Script, b: Book, b': Book, asked: seq<Asked>, r: Record, r': Record)
    requires Mid(trial, script, b, asked, r) && !script.guard(|r.steps|).GuardRaises?
    requires WellFormed(r.requested[|r.steps|], trial.dim)
    requires b' == b.(approvals := b'.approvals) && r' == r.(events := r'.events, reviewed := r.reviewed + 1)
    requires FedOnce(b'.approvals, b'.messages, asked) && Marks(b', asked)
    requires Transcribed(trial.kind.Base(), b'.approvals, b'.messages, r'.events, asked)
    requires Project(r'.events, WalkIn) == Project(r.events, WalkIn)
    requires Project(r'.events, FailureIn) == [] && Trajectory(trial, script, r')
    requires b'.approvals == ApprovalsUpTo(script.guard, r'.reviewed)
    requires trial.kind.Base().Some? ==> Kept(trial.kind.Base().value, b', asked, |r'.requested|)
    ensures Late(trial, script, b', asked, r')
  {
    hide Transcribed, Trajectory, AllContinue, Played, Project, FedOnce, Marks, Balanced, ApprovalsUpTo;
  }

  lemma ReviewApproves(script: Script, b: Book, t: nat)
    requires b.approvals == ApprovalsUpTo(script.guard, t)
    ensures ReviewedBook(b, t, script.guard(t)).approvals == ApprovalsUpTo(script.guard, t + 1)
  {
    ConcatEmpty(b.approvals);
  }

  lemma ReviewTranscribes(base: Option<Settings>, b: Book, asked: seq<Asked>, r: Record, t: nat, reply: GuardReply)
    requires Transcribed(base, b.approvals, b.messages, r.events, asked) && Project(r.events, FailureIn) == []
    requires FedOnce(b.approvals, b.messages, asked) && Marks(b, asked)
    requires asked != [] ==> asked[|asked| - 1].t <= t
    ensures
      var b', r' := ReviewedBook(b, t, reply), ReviewedRecord(r, t, reply);
      && Transcribed(base, b'.approvals, b'.messages, r'.events, asked) && Project(r'.events, FailureIn) == []
      && Project(r'.events, WalkIn) == Project(r.events, WalkIn)
      && FedOnce(b'.approvals, b'.messages, asked) && Marks(b', asked)
  {
    if reply.Rewrites? {
      EventPush(r.events, Modified(Approval(t, reply.detail)));
      ApprovalFeeds(b, asked, Approval(t, reply.detail));
    }
    hide Played, Project, FedOnce, Marks, UsefulReplans, UsefulCalls;
  }

  lemma ReviewWalks(trial: Trial, script: Script, r: Record, r': Record)
    requires Trajectory(trial, script, r) && r.reviewed < |r.requested|
    requires r'.steps == r.steps && r'.requested == r.requested && r'.reviewed == r.reviewed + 1 && r'.frames == r.frames
    ensures Trajectory(trial, script, r')
  {
    forall i | 0 <= i < |r'.steps|
      ensures AlignedAt(trial, script, r', i)
    {
      assert AlignedAt(trial, script, r, i);
    }
  }

  lemma ApprovalFeeds(b: Book, asked: seq<Asked>, a: Approval)
    requires FedOnce(b.approvals, b.messages, asked) && Marks(b, asked)
    requires asked != [] ==> asked[|asked| - 1].t <= a.t
    ensures FedOnce(b.approvals + [a], b.messages, asked) && Marks(b.(approvals := b.approvals + [a]), asked)
  {
    if asked != [] {
      EarlierPush(b.approvals, a, asked[|asked| - 1].t);
    }
    hide Told, ToldMessages, Earlier, UpTo;
    assert (b.approvals + [a])[..b.approvalsTold] == b.approvals[..b.approvalsTold];
  }

  /** The record after the embodiment took the reviewed action. */
  function WalkedRecord(trial: Trial, script: Script, r: Record): Record
    requires |r.requested| == |r.steps| + 1 && script.step(|r.steps|).Stepped?
  {
    var t := |r.steps|;
    var reply := script.step(t);
    r.(steps := r.steps + [StepRecord(t, CurrentObs(script, r), Reviewed(script.guard(t), r.requested[t]), reply.obs)],
       frames := if trial.storesFrames then r.frames + [t + 1] else r.frames,
       events := r.events + [Walked(t, reply.terminated, reply.truncated)])
  }

  lemma WalkKeeps(trial: Trial, script: Script, b: Book, asked: seq<Asked>, r: Record)
    requires Late(trial, script, b, asked, r) && script.step(|r.steps|).Stepped?
    requires WellFormed(Reviewed(script.guard(|r.steps|), r.requested[|r.steps|]), trial.dim)
    ensures
      var r' := WalkedRecord(trial, script, r);
      && Sound(trial, script, b, asked, r') && r'.failed.None? && r'.end.None? && Project(r'.events, FailureIn) == []
      && NothingCaptured(r') && AllContinue(script, r'.requested, |r.steps|)
      && (Continues(script, r'.requested, |r.steps|) ==> Head(trial, script, b, asked, r'))
  {
    hide Trajectory, Played, Project, FedOnce, Marks, Kept, Balanced, ApprovalsUpTo, UsefulReplans, UsefulCalls;
    var r' := WalkedRecord(trial, script, r);
    var reply := script.step(|r.steps|);
    EventPush(r.events, Walked(|r.steps|, reply.terminated, reply.truncated));
    StepWalks(trial, script, r);
  }

  lemma StepWalks(trial: Trial, script: Script, r: Record)
    requires Trajectory(trial, script, r) && |r.requested| == r.reviewed == |r.steps| + 1 && script.reset.Observed?
    requires trial.storesFrames ==> |r.frames| == |r.steps| + 1
    requires script.step(|r.steps|).Stepped? && !script.guard(|r.steps|).GuardRaises?
    requires WellFormed(r.requested[|r.steps|], trial.dim)
    requires WellFormed(Reviewed(script.guard(|r.steps|), r.requested[|r.steps|]), trial.dim)
    ensures Trajectory(trial, script, WalkedRecord(trial, script, r))
  {
    var r' := WalkedRecord(trial, script, r);
    forall i | 0 <= i < |r'.steps|
      ensures AlignedAt(trial, script, r', i)
    {
      if i < |r.steps| {
        assert AlignedAt(trial, script, r, i);
      }
    }
    assert Naturals(|r.frames| + 1) == Naturals(|r.frames|) + [|r.frames|];
  }

  // ---------------------------------------------------------------- the rollout

  const FRESH := Record([Reset], [], [], 0, 0, [], None, None, None, None, None)

  lemma Started(trial: Trial, script: Script)
    requires trial.Valid()
    ensures Sound(trial, script, EMPTY, [], FRESH) && Undecided(script, FRESH) && Heard(trial, script, [], [], FRESH)
    ensures
      var r := FRESH.(frames := if trial.storesFrames then [0] else []);
      && (script.reset.Observed? ==> Head(trial, script, EMPTY, [], r))
      && Heard(trial, script, [], [], r) && (Opening(trial, script).None? ==> Clear(trial, script, r, 0))
  {
    assert [Reset][..0] == [];
    EventPush([], Reset);
    assert Naturals(1) == [0] && Naturals(0) == [];
  }

  /** A failure before the first step is the trial's. */
  lemma OpeningFails(trial: Trial, script: Script, out: Outcome)
    requires trial.Valid() && Opening(trial, script) == Some(out)
    ensures Settled(trial, script, EMPTY, [], if out.Raised? then Failing(FRESH, -1, out.error) else FRESH, out)
  {
    Started(trial, script);
    hide Sound, Undecided, Settled, Heard, Opening, Clear;
    if out.Raised? {
      FailSettles(trial, script, EMPTY, [], FRESH, -1, out.error);
    } else {
      OpeningReturns(trial, script);
      ForeignSettles(trial, script, EMPTY, [], FRESH, out.fault);
    }
  }

  lemma OpeningReturns(trial: Trial, script: Script)
    ensures Opening(trial, script) != Some(Returned)
  {
  }

  /** One trial. */
  method Run(trial: Trial, script: Script) returns (r: Record, out: Outcome, asked: seq<Asked>, b: Book)
    requires trial.Valid()
    ensures Settled(trial, script, b, asked, r, out)
  {
    hide Sound, Undecided, Head, Settled, Heard, Clear, Opening, ConsoleOn;
    r, asked, b := FRESH, [], EMPTY;
    var store := new Store();
    var tap := new Tap(script.act);
    var manager := new ActionManager(trial.kind, script.custom);
    var console, failed := Open(trial, script);
    if failed.Some? {
      OpeningFails(trial, script, failed.value);
      return if failed.value.Raised? then Failing(r, -1, failed.value.error) else r, failed.value, asked, b;
    }
    Started(trial, script);
    if trial.storesFrames {
      r := r.(frames := [0]);
    }
    var t := 0;
    var stop: Option<Outcome> := None;
    HeadSteps(trial, script, b, asked, r);
    while t < trial.maxSteps
      invariant tap.act == script.act && manager.kind == trial.kind && manager.custom == script.custom
      invariant Head(trial, script, store.State(), tap.asked, r) && t == |r.steps| == |r.requested| <= trial.maxSteps
      invariant Heard(trial, script, store.messages, tap.asked, r) && Clear(trial, script, r, t) && r.polled == t
      invariant fresh(store) && fresh(tap) && (console <==> ConsoleOn(trial, script, t))
      decreases trial.maxSteps - t
    {
      r, console, stop := Control(trial, script, store, tap, manager, r, t, console);
      if stop.Some? {
        return r, stop.value, tap.asked, store.State();
      }
      t := t + 1;
    }
    HorizonSettles(trial, script, store.State(), tap.asked, r);
    return r.(end := Some(Horizon)), Returned, tap.asked, store.State();
  }

  /** Resets the policy and the embodiment, begins the operator's trial and keeps the first frame; a
      console that fails to begin is switched off. */
  method Open(trial: Trial, script: Script) returns (console: bool, failed: Option<Outcome>)
    ensures failed == Opening(trial, script)
    ensures failed.None? ==> script.reset.Observed? && (console <==> ConsoleOn(trial, script, 0))
  {
    console, failed := trial.operator, None;
    if script.policyReset.Some? {
      return console, Some(Raised(Blame(script.policyReset.value, PolicyError)));
    }
    if script.reset.ResetRaises? {
      return console, Some(Raised(Blame(script.reset.fault, EmbodimentFault)));
    }
    if trial.operator && script.begin.Some? {
      console := false;
      if script.begin.value.Keyboard? {
        return console, Some(Raised(CancelledTrial));
      }
    }
    if trial.storesFrames && script.frame(0).Some? {
      failed := Some(Sunk(script.frame(0).value));
    }
  }

  lemma ForeignSettles(trial: Trial, script: Script, b: Book, asked: seq<Asked>, r: Record, fault: Fault)
    requires Sound(trial, script, b, asked, r) && Undecided(script, r) && Heard(trial, script, b.messages, asked, r)
    requires Faults(trial, script, b, asked, r, Foreign(fault))
    ensures Settled(trial, script, b, asked, r, Foreign(fault))
  {
    hide Sound, Undecided, Heard, Faults;
  }

  lemma HeadSteps(trial: Trial, script: Script, b: Book, asked: seq<Asked>, r: Record)
    requires Head(trial, script, b, asked, r)
    ensures Sound(trial, script, b, asked, r) && Undecided(script, r)
    ensures |r.requested| == r.reviewed == |r.steps| <= trial.maxSteps
    ensures b.approvalsTold <= |b.approvals| && b.messagesTold <= |b.messages| && b.replansSeen == |b.replans|
  {
  }

  lemma HorizonSettles(trial: Trial, script: Script, b: Book, asked: seq<Asked>, r: Record)
    requires Head(trial, script, b, asked, r) && |r.steps| == trial.maxSteps == r.polled
    requires Heard(trial, script, b.messages, asked, r) && Clear(trial, script, r, r.polled)
    ensures Settled(trial, script, b, asked, r.(end := Some(Horizon)), Returned)
  {
    hide Heard, Clear, Transcribed, Trajectory, AllContinue, Played, Project, FedOnce, Marks, Balanced, Kept;
    EndSettles(trial, script, b, asked, r, Horizon);
  }

  /** One control step: the record after it, whether the operator's console still works, and how the
      trial ended if it did. */
  method Control(trial: Trial, script: Script, store: Store, tap: Tap, manager: ActionManager, r: Record, t: nat,
                 console: bool)
    returns (r': Record, console': bool, stop: Option<Outcome>)
    requires trial.Valid() && tap.act == script.act && manager.kind == trial.kind && manager.custom == script.custom
    requires Head(trial, script, store.State(), tap.asked, r) && t == |r.steps| == |r.requested| < trial.maxSteps
    requires Heard(trial, script, store.messages, tap.asked, r) && Clear(trial, script, r, t) && r.polled == t
    requires console <==> ConsoleOn(trial, script, t)
    modifies store, tap
    ensures
      stop.None?
      ==>
        && Head(trial, script, store.State(), tap.asked, r') && |r'.steps| == |r'.requested| == t + 1 == r'.polled
        && Heard(trial, script, store.messages, tap.asked, r') && Clear(trial, script, r', t + 1)
        && (console' <==> ConsoleOn(trial, script, t + 1))
    ensures stop.Some? ==> Settled(trial, script, store.State(), tap.asked, r', stop.value)
  {
    hide Sound, Undecided, Head, Settled, Mid, Heard, Clear;
    r', console', stop := r, console, None;
    if console {
      var end;
      r', console', end, stop := PollOperator(trial, script, store, tap, r, t);
      if stop.Some? {
        return;
      }
      if end.Some? {
        OperatorSettles(trial, script, store.State(), tap.asked, r', end.value);
        r' := OperatorRecord(r', end.value);
        return r', console', Some(Returned);
      }
    } else {
      PolledKeeps(trial, script, store.State(), tap.asked, r, store.messages);
      r' := r'.(polled := t + 1);
    }
    var action;
    r', action, stop := AskManager(trial, script, store, tap, manager, r', t);
    if stop.Some? {
      return;
    }
    r', stop := ReviewAndStep(trial, script, store, tap, r', t, action.value);
  }

  /** The end request of the operator: a verdict is recorded with its note. */
  function OperatorRecord(r: Record, end: Console.EndRequest): Record {
    var r := r.(end := Some(OperatorEnd));
    if end.verdict.Some? then
      r.(judgement := end.verdict, note := end.note,
         events := r.events + [Verdict(|r.steps|, end.verdict.value, end.note)])
    else r
  }

  lemma OperatorSettles(trial: Trial, script: Script, b: Book, asked: seq<Asked>, r: Record, end: Console.EndRequest)
    requires Head(trial, script, b, asked, r) && |r.steps| < trial.maxSteps && r.polled == |r.steps| + 1
    requires Heard(trial, script, b.messages, asked, r) && Clear(trial, script, r, |r.steps|)
    requires EndRequested(trial, script, |r.steps|) && script.poll(|r.steps|).end == Some(end)
    ensures Settled(trial, script, b, asked, OperatorRecord(r, end), Returned)
  {
    hide Sound, Head, Settled, Heard, Clear, Project;
    HeadSteps(trial, script, b, asked, r);
    UndecidedMeans(script, r);
    var noted := OperatorRecord(r, end).(end := None);
    NotedSounds(trial, script, b, asked, r, noted, Verdict(|r.steps|, end.verdict.GetOr(""), end.note));
    SameClear(trial, script, r, noted, |r.steps|);
    HeardSame(trial, script, asked, r, noted, b.messages);
    EndSettles(trial, script, b, asked, noted, OperatorEnd);
  }

  /** An event that says how the trial ends leaves the rest of the transcript alone. */
  lemma NotedSounds(trial: Trial, script: Script, b: Book, asked: seq<Asked>, r: Record, r': Record, e: Event)
    requires Sound(trial, script, b, asked, r) && Project(r.events, FailureIn) == []
    requires (e.Verdict? || e.PolicyEnded?) && (r'.events == r.events || r'.events == r.events + [e])
    requires r'.steps == r.steps && r'.requested == r.requested && r'.reviewed == r.reviewed && r'.frames == r.frames
    ensures Sound(trial, script, b, asked, r') && Project(r'.events, FailureIn) == [] && |r.steps| <= |r.requested|
  {
    hide AlignedAt, AllContinue, Played, Project, FedOnce, Balanced, UsefulCalls, UsefulReplans, Blended, ApprovalsUpTo, Walks;
    EventPush(r.events, e);
    SameWalk(trial, script, r, r');
  }

  /** Asks the console once: every message is kept and recorded in order. A poll that fails switches the
      console off, unless it was interrupted. */
  method PollOperator(trial: Trial, script: Script, store: Store, tap: Tap, r: Record, t: nat)
    returns (r': Record, console: bool, end: Option<Console.EndRequest>, stop: Option<Outcome>)
    requires Head(trial, script, store.State(), tap.asked, r) && t == |r.steps| == |r.requested| < trial.maxSteps
    requires Heard(trial, script, store.messages, tap.asked, r) && Clear(trial, script, r, t) && r.polled == t
    requires ConsoleOn(trial, script, t)
    modifies store`messages
    ensures
      stop.None?
      ==>
        && Head(trial, script, store.State(), tap.asked, r') && |r'.steps| == |r'.requested| == t && r'.polled == t + 1
        && Heard(trial, script, store.messages, tap.asked, r') && Clear(trial, script, r', t)
        && (console <==> ConsoleOn(trial, script, t + 1))
        && (end.Some? <==> EndRequested(trial, script, t)) && (end.Some? ==> end == script.poll(t).end)
        && (end.None? ==> Clear(trial, script, r', t + 1))
    ensures stop.Some? ==> Settled(trial, script, store.State(), tap.asked, r', stop.value)
  {
    hide Sound, Undecided, Head, Settled, Heard, Clear, SaidAt, Opening;
    HeadSteps(trial, script, store.State(), tap.asked, r);
    ClearMeans(trial, script, r, t);
    r', console, end, stop := r, true, None, None;
    ghost var said := store.messages;
    var reply := script.poll(t);
    if reply.PollRaises? {
      console := false;
      if reply.fault.Keyboard? {
        FailSettles(trial, script, store.State(), tap.asked, r, t, CancelledTrial);
        r', stop := Failing(r, t, CancelledTrial), Some(Raised(CancelledTrial));
        return;
      }
      SaidNothing(reply, t, said);
    } else {
      ConsoleMeans(trial, script, t);
      r' := Hear(trial, script, store, tap, r, t, reply);
      end := reply.end;
      SameClear(trial, script, r, r', t);
      HeardSame(trial, script, tap.asked, r, r', said);
    }
    PolledKeeps(trial, script, store.State(), tap.asked, r', said);
    r' := r'.(polled := t + 1);
  }

  lemma SaidNothing(reply: PollReply, t: nat, said: seq<Message>)
    requires reply.PollRaises?
    ensures said + SaidAt(reply, t) == said
  {
  }

  /** Keeps and records every message of a poll, in order. */
  method Hear(trial: Trial, script: Script, store: Store, tap: Tap, r: Record, t: nat, reply: PollReply)
    returns (r': Record)
    requires Head(trial, script, store.State(), tap.asked, r) && t == |r.steps| && trial.operator && reply.Polled?
    modifies store`messages
    ensures Head(trial, script, store.State(), tap.asked, r') && r' == r.(events := r'.events)
    ensures store.messages == old(store.messages) + SaidAt(reply, t)
  {
    hide Head;
    r' := r;
    ghost var said, heard := store.messages, SaidAt(reply, t);
    for i := 0 to |reply.messages|
      invariant Head(trial, script, store.State(), tap.asked, r') && r' == r.(events := r'.events)
      invariant store.messages == said + heard[..i]
    {
      var m := Message(t, reply.messages[i], SourceAt(reply.sources, i));
      MessageKeeps(trial, script, store.State(), tap.asked, r', m);
      assert heard[..i + 1] == heard[..i] + [m];
      ConcatAssociates(said, heard[..i], [m]);
      store.messages := store.messages + [m];
      r' := r'.(events := r'.events + [Said(m)]);
    }
    assert heard[..|reply.messages|] == heard;
  }

  lemma ConsoleMeans(trial: Trial, script: Script, t: nat)
    requires ConsoleOn(trial, script, t)
    ensures trial.operator
  {
    if t > 0 {
      ConsoleMeans(trial, script, t - 1);
    }
  }

  lemma ClearMeans(trial: Trial, script: Script, r: Record, n: nat)
    requires |r.steps| <= |r.requested| && Clear(trial, script, r, n)
    ensures Opening(trial, script).None?
  {
  }

  lemma HeardSame(trial: Trial, script: Script, asked: seq<Asked>, r: Record, r': Record, messages: seq<Message>)
    requires Heard(trial, script, messages, asked, r)
    requires r'.steps == r.steps && r'.requested == r.requested && r'.polled == r.polled
    ensures Heard(trial, script, messages, asked, r')
  {
  }

  /** The operator's turn in a step has passed: what was said is what the poll returned, if it was called. */
  lemma PolledKeeps(trial: Trial, script: Script, b: Book, asked: seq<Asked>, r: Record, said: seq<Message>)
    requires Head(trial, script, b, asked, r) && |r.steps| == |r.requested| == r.polled
    requires Heard(trial, script, said, asked, r) && Clear(trial, script, r, |r.steps|)
    requires Polling(trial, script, |r.steps|).None?
    requires
      var t := |r.steps|;
      b.messages == if ConsoleOn(trial, script, t) then said + SaidAt(script.poll(t), t) else said
    ensures
      var t := |r.steps|;
      var r' := r.(polled := t + 1);
      && Head(trial, script, b, asked, r') && Heard(trial, script, b.messages, asked, r') && Clear(trial, script, r', t)
      && (!EndRequested(trial, script, t) ==> Clear(trial, script, r', t + 1))
  {
    hide Head, ConsoleOn, SaidAt, Opening, Acting, Polling, EndRequested;
    var t := |r.steps|;
    var r' := r.(polled := t + 1);
    ConcatEmpty(said);
    HeadSame(trial, script, b, asked, r, r');
    HeadOrder(trial, script, b, asked, r);
  }

  lemma HeadSame(trial: Trial, script: Script, b: Book, asked: seq<Asked>, r: Record, r': Record)
    requires Head(trial, script, b, asked, r) && r' == r.(polled := r'.polled)
    ensures Head(trial, script, b, asked, r')
  {
    hide Played, Project, FedOnce, Marks, Kept, Balanced, ApprovalsUpTo, AllContinue, UsefulCalls, UsefulReplans, Transcribed;
    SameWalk(trial, script, r, r');
  }

  /** Chooses the action of a step; whatever the manager cannot answer with is the policy's to answer for. */
  method AskManager(trial: Trial, script: Script, store: Store, tap: Tap, manager: ActionManager, r: Record, t: nat)
    returns (r': Record, action: Option<Step>, stop: Option<Outcome>)
    requires trial.Valid() && tap.act == script.act && manager.kind == trial.kind && manager.custom == script.custom
    requires Head(trial, script, store.State(), tap.asked, r) && t == |r.steps| == |r.requested| < trial.maxSteps
    requires Heard(trial, script, store.messages, tap.asked, r) && Clear(trial, script, r, t + 1) && r.polled == t + 1
    modifies store, tap
    ensures
      stop.None?
      ==>
        && Mid(trial, script, store.State(), tap.asked, r') && |r'.steps| == t && |r'.requested| == t + 1 == r'.polled
        && action == Some(r'.requested[t])
        && Heard(trial, script, store.messages, tap.asked, r') && Clear(trial, script, r', t + 1)
    ensures stop.Some? ==> Settled(trial, script, store.State(), tap.asked, r', stop.value)
  {
    hide Sound, Undecided, Head, Settled, Mid, NextOf, Answered, EndsBy, Heard, Clear, ManagerFails;
    ghost var b, asked := store.State(), tap.asked;
    HeadSteps(trial, script, b, asked, r);
    ClearMeans(trial, script, r, t + 1);
    var shown := Shown(store.approvals[store.approvalsTold..],
                       if trial.operator then store.messages[store.messagesTold..] else []);
    var inferences := |store.inferences|;
    ghost var turn := TurnAt(trial, script, b, t);
    TurnAnswers(trial, script, b, asked, r);
    AskHears(trial, script, b, asked, r, turn);
    HeadOrder(trial, script, b, asked, r);
    var reply := manager.NextAction(tap, shown, t, store);
    if reply.Broke? || reply.Empty? {
      AskFails(trial, script, b, asked, r, turn);
      var e := if reply.Empty? then PolicyError else Blame(reply.fault, PolicyError);
      AskBlames(trial, script, b, asked, t, turn, store.State());
      FailSettles(trial, script, store.State(), tap.asked, r, t, e);
      return Failing(r, t, e), None, Some(Raised(e));
    }
    r' := TakeTurn(trial, script, store, tap, r, t, inferences, b, asked, turn);
    SameClear(trial, script, r, r', t + 1);
    HeardSame(trial, script, tap.asked, r, r', store.messages);
    action, stop := None, None;
    match reply
    case Play(played) =>
      action := Some(played);
      HeardRequest(trial, script, tap.asked, r', store.messages, played);
      SameClear(trial, script, r', r'.(requested := r'.requested + [played]), t + 1);
      r' := r'.(requested := r'.requested + [played]);
    case End(terminal) =>
      if Unusable(trial, reply) {
        AnsweredMeans(trial, b, asked, t, turn);
        AskBlames(trial, script, b, asked, t, turn, store.State());
      }
      r', stop := EndWithoutStep(trial, script, store.State(), tap.asked, r', t, terminal);
  }

  lemma HeadOrder(trial: Trial, script: Script, b: Book, asked: seq<Asked>, r: Record)
    requires Head(trial, script, b, asked, r)
    ensures asked != [] ==> asked[|asked| - 1].t < |r.steps|
  {
  }

  lemma HeardRequest(trial: Trial, script: Script, asked: seq<Asked>, r: Record, messages: seq<Message>, a: Step)
    requires Heard(trial, script, messages, asked, r) && r.polled == |r.steps| + 1
    ensures Heard(trial, script, messages, asked, r.(requested := r.requested + [a]))
  {
  }

  method TakeTurn(trial: Trial, script: Script, store: Store, tap: Tap, r: Record, t: nat,
                  inferences: nat, ghost b: Book, ghost asked: seq<Asked>, ghost turn: Turn)
    returns (r': Record)
    requires Head(trial, script, b, asked, r) && t == |r.steps| < trial.maxSteps
    requires Answered(trial, b, asked, t, turn) && turn.reply.Returned()
    requires store.State() == turn.book && tap.asked == asked + turn.asked && inferences == |b.inferences|
    modifies store`replansSeen, store`approvalsTold, store`messagesTold
    ensures r' == r.(events := r'.events) && |r'.requested| == t
    ensures
      turn.reply.Play?
      ==>
        Mid(trial, script, store.State(), tap.asked, r'.(requested := r'.requested + [turn.reply.action]))
    ensures
      turn.reply.End?
      ==>
        && Sound(trial, script, store.State(), tap.asked, r') && Undecided(script, r')
        && EndStep(r') == t
        && (turn.reply.terminal.kind in trial.declared
            ==> EndsBy(trial, script, r', tap.asked, ByPolicy(turn.reply.terminal)))
  {
    hide Sound, Undecided, Head, Mid, EndsBy, Noted, ReplansOf, Acknowledged, Answered;
    HeadSteps(trial, script, b, asked, r);
    AskReturns(trial, script, b, asked, r, turn);
    TurnAccounts(trial, b, asked, t, turn);
    if turn.reply.End? {
      EmptyChunkEnds(trial, script, b, asked, r, r.(events := Noted(trial.kind.Base(), r.events, turn.asked)), turn);
    }
    r' := RecordTurn(trial, store, r, t, inferences, turn);
  }

  method EndWithoutStep(trial: Trial, script: Script, ghost b: Book, ghost asked: seq<Asked>, r: Record, t: nat,
                        terminal: Termination)
    returns (r': Record, stop: Option<Outcome>)
    requires |r.requested| == |r.steps| == t == EndStep(r) && Sound(trial, script, b, asked, r) && Undecided(script, r)
    requires terminal.kind in trial.declared ==> EndsBy(trial, script, r, asked, ByPolicy(terminal))
    requires terminal.kind !in trial.declared ==> ManagerFails(trial, script, b, asked, t, PolicyError)
    requires Heard(trial, script, b.messages, asked, r) && Clear(trial, script, r, t + 1) && r.polled == t + 1 <= trial.maxSteps
    ensures stop.Some? && Settled(trial, script, b, asked, r', stop.value)
  {
    UndecidedMeans(script, r);
    ClearMeans(trial, script, r, t + 1);
    hide Sound, Undecided, Settled, EndsBy, Project, AllContinue, ManagerFails, Heard, Clear;
    if terminal.kind !in trial.declared {
      FailSettles(trial, script, b, asked, r, t, PolicyError);
      return Failing(r, t, PolicyError), Some(Raised(PolicyError));
    }
    var unstepped := if r.steps == [] then Some(CurrentObs(script, r)) else None;
    PolicyEndSettles(trial, script, b, asked, r, terminal, t, unstepped);
    r', stop := PolicyRecord(r, terminal, t, unstepped), Some(Returned);
  }

  /** Records what a call that returned left in the store, and marks the feedback it was shown as told. */
  method RecordTurn(trial: Trial, store: Store, r: Record, t: nat, inferences: nat, ghost turn: Turn) returns (r': Record)
    requires store.State() == turn.book && store.replansSeen <= |store.replans|
    requires store.replans[store.replansSeen..] == ReplansOf(turn.asked)
    requires turn.asked == [] ==> |store.inferences| == inferences && ReplansOf(turn.asked) == []
    requires
      turn.asked != []
      ==>
        && |store.inferences| == inferences + 1 && turn.asked[0].reply.Useful() && turn.asked[0].t == t
        && store.inferences[inferences] == InferenceOf(trial.kind.Base(), turn.asked[0].reply.chunk)
    modifies store`replansSeen, store`approvalsTold, store`messagesTold
    ensures store.State() == Acknowledged(trial.operator, turn.book, turn.asked != [])
    ensures r' == r.(events := Noted(trial.kind.Base(), r.events, turn.asked))
  {
    r' := r;
    var seen := store.replansSeen;
    ConcatEmpty(r.events);
    for i := seen to |store.replans|
      invariant r' == r.(events := r.events + ReplanEvents(store.replans[seen..i])) && store.State() == turn.book
    {
      assert store.replans[seen..i + 1] == store.replans[seen..i] + [store.replans[i]];
      ReplanEventsPush(store.replans[seen..i], store.replans[i]);
      ConcatAssociates(r.events, ReplanEvents(store.replans[seen..i]), [Replanned(store.replans[i])]);
      r' := r'.(events := r'.events + [Replanned(store.replans[i])]);
    }
    assert store.replans[seen..|store.replans|] == store.replans[seen..];
    store.replansSeen := |store.replans|;
    if |store.inferences| > inferences {
      store.approvalsTold := |store.approvals|;
      if trial.operator {
        store.messagesTold := |store.messages|;
      }
      r' := r'.(events := r'.events + [Inferred(t, store.inferences[|store.inferences| - 1])]);
    }
  }

  lemma ReplanEventsPush(replans: seq<Replan>, x: Replan)
    ensures ReplanEvents(replans + [x]) == ReplanEvents(replans) + [Replanned(x)]
  {
  }

  /** What the store shows of a call that returned. */
  lemma TurnAccounts(trial: Trial, b: Book, asked: seq<Asked>, t: nat, turn: Turn)
    requires Answered(trial, b, asked, t, turn) && turn.reply.Returned()
    ensures turn.book.replansSeen == |b.replans| <= |turn.book.replans|
    ensures turn.book.replans[|b.replans|..] == ReplansOf(turn.asked)
    ensures turn.asked == [] ==> |turn.book.inferences| == |b.inferences| && ReplansOf(turn.asked) == []
    ensures
      turn.asked != []
      ==>
        && |turn.book.inferences| == |b.inferences| + 1 && turn.asked[0].reply.Useful() && turn.asked[0].t == t
        && turn.book.inferences[|b.inferences|] == InferenceOf(trial.kind.Base(), turn.asked[0].reply.chunk)
  {
    hide FedOnce, Marks, Balanced, Kept, ReplansOf, InferencesOf;
    ConcatEmpty(b.inferences);
    if turn.asked == [] {
      OneAsk(trial.kind.Base(), Asked(0, [], [], None, ActRaises(Keyboard)));
    } else {
      assert turn.asked == [turn.asked[0]];
      OneAsk(trial.kind.Base(), turn.asked[0]);
    }
  }

  function PolicyRecord(r: Record, terminal: Termination, t: nat, unstepped: Option<nat>): Record {
    r.(end := Some(ByPolicy(terminal)), events := r.events + [PolicyEnded(t, terminal)], unstepped := unstepped)
  }

  lemma PolicyEndSettles(trial: Trial, script: Script, b: Book, asked: seq<Asked>, r: Record, terminal: Termination,
                         t: nat, unstepped: Option<nat>)
    requires Sound(trial, script, b, asked, r) && r.failed.None? && Project(r.events, FailureIn) == []
    requires EndsBy(trial, script, r, asked, ByPolicy(terminal)) && r.judgement.None? && r.note.None?
    requires t == EndStep(r) && unstepped == (if r.steps == [] then Some(CurrentObs(script, r)) else None)
    requires Heard(trial, script, b.messages, asked, r) && Clear(trial, script, r, r.polled)
    ensures Settled(trial, script, b, asked, PolicyRecord(r, terminal, t, unstepped), Returned)
  {
    hide Sound, EndsBy, Settled, Heard, Clear, Project;
    var noted := r.(events := r.events + [PolicyEnded(t, terminal)], unstepped := unstepped);
    NotedSounds(trial, script, b, asked, r, noted, PolicyEnded(t, terminal));
    SameClear(trial, script, r, noted, r.polled);
    HeardSame(trial, script, asked, r, noted, b.messages);
    SameEnd(trial, script, r, noted, asked, ByPolicy(terminal));
    SameRecord(r, noted);
    EndSettles(trial, script, b, asked, noted, ByPolicy(terminal));
  }

  lemma SameEnd(trial: Trial, script: Script, r: Record, r': Record, asked: seq<Asked>, end: End)
    requires r'.steps == r.steps && r'.requested == r.requested && r'.polled == r.polled && |r.steps| <= |r.requested|
    ensures EndsBy(trial, script, r, asked, end) <==> EndsBy(trial, script, r', asked, end)
  {
  }

  lemma SameRecord(r: Record, r': Record)
    requires r'.steps == r.steps && r'.requested == r.requested && |r.steps| <= |r.requested|
    ensures EndStep(r') == EndStep(r) && forall script :: CurrentObs(script, r') == CurrentObs(script, r)
  {
  }

  /** A terminal chunk with no actions ends the trial without a step. */
  lemma EmptyChunkEnds(trial: Trial, script: Script, b: Book, asked: seq<Asked>, r: Record, r': Record, turn: Turn)
    requires Head(trial, script, b, asked, r) && |r.steps| < trial.maxSteps && r' == r.(events := r'.events)
    requires Answered(trial, b, asked, |r.steps|, turn) && turn.reply.End?
    ensures |r'.requested| == |r'.steps| == EndStep(r')
    ensures
      turn.reply.terminal.kind in trial.declared
      ==>
        EndsBy(trial, script, r', asked + turn.asked, ByPolicy(turn.reply.terminal))
  {
    hide Sound, AllContinue, Project, Marks, FedOnce, Balanced, Kept, ReplansOf, InferencesOf;
    assert (asked + turn.asked)[|asked + turn.asked| - 1] == turn.asked[0];
    NoStopBehind(trial, script, b, asked, r);
  }

  lemma NoStopBehind(trial: Trial, script: Script, b: Book, asked: seq<Asked>, r: Record)
    requires Head(trial, script, b, asked, r)
    ensures EndStep(r) == |r.steps|
  {
    if |r.steps| > 0 {
      assert Continues(script, r.requested, |r.steps| - 1);
    }
  }

  method ReviewAndStep(trial: Trial, script: Script, store: Store, tap: Tap, r: Record, t: nat, action: Step)
    returns (r': Record, stop: Option<Outcome>)
    requires trial.Valid() && Mid(trial, script, store.State(), tap.asked, r)
    requires t == |r.steps| && |r.requested| == t + 1 == r.polled && action == r.requested[t]
    requires Heard(trial, script, store.messages, tap.asked, r) && Clear(trial, script, r, t + 1)
    modifies store`approvals
    ensures
      stop.None?
      ==>
        && Head(trial, script, store.State(), tap.asked, r') && |r'.steps| == |r'.requested| == t + 1 == r'.polled
        && Heard(trial, script, store.messages, tap.asked, r') && Clear(trial, script, r', t + 1)
    ensures stop.Some? ==> Settled(trial, script, store.State(), tap.asked, r', stop.value)
  {
    MidSteps(trial, script, store.State(), tap.asked, r);
    ClearMeans(trial, script, r, t + 1);
    hide Sound, Undecided, Head, Settled, Mid, Late, WellFormed, Heard, Clear;
    // The action as the manager returned it is the policy's to answer for.
    if !WellFormed(action, trial.dim) || (action.terminal.Some? && action.terminal.value.kind !in trial.declared) {
      FailSettles(trial, script, store.State(), tap.asked, r, t, PolicyError);
      return Failing(r, t, PolicyError), Some(Raised(PolicyError));
    }
    r', stop := Review(trial, script, store, tap, r, t, action);
    if stop.None? {
      r', stop := StepEmbodiment(trial, script, store.State(), tap.asked, r', t, StopOf(action));
    }
  }

  /** The guard's review; whatever the guard made of the action is the guard's to answer for. */
  method Review(trial: Trial, script: Script, store: Store, tap: Tap, r: Record, t: nat, action: Step)
    returns (r': Record, stop: Option<Outcome>)
    requires trial.Valid() && Mid(trial, script, store.State(), tap.asked, r)
    requires t == |r.steps| && |r.requested| == t + 1 == r.polled && action == r.requested[t]
    requires WellFormed(action, trial.dim) && Declared(trial, action)
    requires Heard(trial, script, store.messages, tap.asked, r) && Clear(trial, script, r, t + 1)
    modifies store`approvals
    ensures
      stop.None?
      ==>
        && Late(trial, script, store.State(), tap.asked, r') && r'.steps == r.steps && r'.requested == r.requested
        && Heard(trial, script, store.messages, tap.asked, r') && Clear(trial, script, r', t + 1) && r'.polled == t + 1
        && !script.guard(t).GuardRaises? && WellFormed(Reviewed(script.guard(t), action), trial.dim)
    ensures stop.Some? ==> Settled(trial, script, store.State(), tap.asked, r', stop.value)
  {
    hide Sound, Undecided, Settled, Mid, Late, WellFormed, Heard, Clear, Opening;
    MidSteps(trial, script, store.State(), tap.asked, r);
    ClearMeans(trial, script, r, t + 1);
    var reply := script.guard(t);
    r', stop := r, None;
    if reply.GuardRaises? {
      var e := Blame(reply.fault, SafetyAbort);
      FailSettles(trial, script, store.State(), tap.asked, r, t, e);
      return Failing(r, t, e), Some(Raised(e));
    }
    r' := RecordReview(trial, script, store, tap, r, t);
    SameClear(trial, script, r, r', t + 1);
    HeardSame(trial, script, tap.asked, r, r', store.messages);
    if !WellFormed(Reviewed(reply, action), trial.dim) {
      LateSteps(trial, script, store.State(), tap.asked, r');
      FailSettles(trial, script, store.State(), tap.asked, r', t, SafetyAbort);
      return Failing(r', t, SafetyAbort), Some(Raised(SafetyAbort));
    }
  }

  /** A review that passed: a changed action is one event and one approval in the store. */
  method RecordReview(trial: Trial, script: Script, store: Store, tap: Tap, r: Record, t: nat) returns (r': Record)
    requires Mid(trial, script, store.State(), tap.asked, r) && t == |r.steps| && !script.guard(t).GuardRaises?
    requires |r.requested| == t + 1 && WellFormed(r.requested[t], trial.dim)
    modifies store`approvals
    ensures Late(trial, script, store.State(), tap.asked, r')
    ensures r'.steps == r.steps && r'.requested == r.requested && r'.polled == r.polled
  {
    ghost var b := store.State();
    ReviewKeeps(trial, script, b, tap.asked, r);
    hide Mid, Late, WellFormed;
    var reply := script.guard(t);
    if reply.Rewrites? {
      store.approvals := store.approvals + [Approval(t, reply.detail)];
    }
    assert store.State() == ReviewedBook(b, t, reply);
    r' := ReviewedRecord(r, t, reply);
  }

  /** The first reason to end after a step: the embodiment's, then the policy's. */
  lemma WalkEnds(trial: Trial, script: Script, asked: seq<Asked>, r: Record)
    requires |r.requested| == |r.steps| + 1 && script.step(|r.steps|).Stepped?
    requires AllContinue(script, r.requested, |r.steps|)
    requires r.requested[|r.steps|].terminal.Some? ==> r.requested[|r.steps|].terminal.value.kind in trial.declared
    ensures
      var r', reply, stop := WalkedRecord(trial, script, r), script.step(|r.steps|), StopOf(r.requested[|r.steps|]);
      && |r'.steps| == |r.steps| + 1 == |r'.requested| && (stop.Some? ==> EndStep(r') == |r.steps|)
      && (reply.terminated ==> EndsBy(trial, script, r', asked, Terminated(reply.reason)))
      && (!reply.terminated && reply.truncated ==> EndsBy(trial, script, r', asked, Truncated(Nonempty(reply.reason))))
      && (!reply.terminated && !reply.truncated && stop.Some? ==> EndsBy(trial, script, r', asked, ByPolicy(stop.value)))
      && (!reply.terminated && !reply.truncated && stop.None? ==> Continues(script, r'.requested, |r.steps|))
  {
  }

  method StepEmbodiment(trial: Trial, script: Script, ghost b: Book, ghost asked: seq<Asked>, r: Record, t: nat,
                        terminal: Option<Termination>)
    returns (r': Record, stop: Option<Outcome>)
    requires Late(trial, script, b, asked, r) && t == |r.steps|
    requires |r.requested| == t + 1 && terminal == StopOf(r.requested[t])
    requires WellFormed(Reviewed(script.guard(t), r.requested[t]), trial.dim) && !script.guard(t).GuardRaises?
    requires WellFormed(r.requested[t], trial.dim) && Declared(trial, r.requested[t])
    requires Heard(trial, script, b.messages, asked, r) && Clear(trial, script, r, t + 1) && r.polled == t + 1
    ensures
      stop.None?
      ==>
        && Head(trial, script, b, asked, r') && |r'.steps| == |r'.requested| == t + 1 == r'.polled
        && Heard(trial, script, b.messages, asked, r') && Clear(trial, script, r', t + 1)
    ensures stop.Some? ==> Settled(trial, script, b, asked, r', stop.value)
  {
    hide Sound, Undecided, Head, Settled, Late, Project, AllContinue, WellFormed, Heard, Clear, Opening;
    LateSteps(trial, script, b, asked, r);
    UndecidedMeans(script, r);
    ClearMeans(trial, script, r, t + 1);
    r', stop := r, None;
    var result := script.step(t);
    if result.StepRaises? {
      var e := Blame(result.fault, EmbodimentFault);
      FailSettles(trial, script, b, asked, r', t, e);
      return Failing(r', t, e), Some(Raised(e));
    }
    var fault := if script.log(t).Some? then script.log(t) else if trial.storesFrames then script.frame(t + 1) else None;
    if fault.Some? {
      if fault.value.Keyboard? {
        FailSettles(trial, script, b, asked, r', t, CancelledTrial);
        return Failing(r', t, CancelledTrial), Some(Raised(CancelledTrial));
      }
      ForeignSettles(trial, script, b, asked, r', fault.value);
      return r', Some(Foreign(fault.value));
    }
    WalkKeeps(trial, script, b, asked, r');
    WalkEnds(trial, script, asked, r');
    WalkClears(trial, script, b.messages, asked, r');
    hide EndsBy, WalkedRecord, Acting, Declared;
    r' := WalkedRecord(trial, script, r');
    if result.terminated {
      EndSettles(trial, script, b, asked, r', Terminated(result.reason));
      return r'.(end := Some(Terminated(result.reason))), Some(Returned);
    }
    if result.truncated {
      EndSettles(trial, script, b, asked, r', Truncated(Nonempty(result.reason)));
      return r'.(end := Some(Truncated(Nonempty(result.reason)))), Some(Returned);
    }
    if terminal.Some? {
      PolicyEndSettles(trial, script, b, asked, r', terminal.value, t, r'.unstepped);
      return PolicyRecord(r', terminal.value, t, r'.unstepped), Some(Returned);
    }
  }

  /** A step no hook failed in. */
  lemma WalkClears(trial: Trial, script: Script, messages: seq<Message>, asked: seq<Asked>, r: Record)
    requires |r.requested| == |r.steps| + 1 == r.polled && script.step(|r.steps|).Stepped?
    requires Heard(trial, script, messages, asked, r) && Clear(trial, script, r, r.polled)
    requires Acting(trial, script, r.requested[|r.steps|], |r.steps|).None?
    ensures
      var r' := WalkedRecord(trial, script, r);
      && r'.polled == |r'.steps| && Clear(trial, script, r', r'.polled)
      && (asked == [] || asked[|asked| - 1].t <= |r.steps| ==> Heard(trial, script, messages, asked, r'))
  {
    hide Acting, Opening, Passes;
  }

  lemma UndecidedMeans(script: Script, r: Record)
    requires |r.steps| <= |r.requested| && Undecided(script, r)
    ensures AllContinue(script, r.requested, |r.steps|)
    ensures r.failed.None? && r.end.None? && NothingCaptured(r) && Project(r.events, FailureIn) == []
  {
  }

  lemma MidSteps(trial: Trial, script: Script, b: Book, asked: seq<Asked>, r: Record)
    requires Mid(trial, script, b, asked, r)
    ensures Sound(trial, script, b, asked, r) && Undecided(script, r)
    ensures |r.requested| == r.reviewed + 1 == |r.steps| + 1 <= trial.maxSteps
  {
  }

  lemma LateSteps(trial: Trial, script: Script, b: Book, asked: seq<Asked>, r: Record)
    requires Late(trial, script, b, asked, r)
    ensures Sound(trial, script, b, asked, r) && Undecided(script, r)
    ensures |r.requested| == r.reviewed == |r.steps| + 1 <= trial.maxSteps
    ensures asked != [] ==> asked[|asked| - 1].t <= |r.steps|
  {
  }

  /** Over a whole trial, eviction loses no prediction: a blending manager's buffer is the history of all
      chunks the policy returned, filtered to those that cover the latest query, oldest first. */
  lemma EnsembleIsLossless(trial: Trial, script: Script, b: Book, asked: seq<Asked>, r: Record, out: Outcome)
    requires Settled(trial, script, b, asked, r, out) && trial.kind.Blends() && Chunks(asked) != []
    ensures
      var chunks := Chunks(asked);
      && Ensembling.History(chunks) && b.ensemble == Ensembling.Filtered(chunks, chunks[|chunks| - 1].q)
      && b.ensemble != [] && b.ensemble[|b.ensemble| - 1] == chunks[|chunks| - 1]
  {
    hide *;
    EnsembleIsBuffer(trial, script, b, asked, r, out);
    ChunksAreHistory(asked);
    Ensembling.EvictionIsLossless(Chunks(asked));
  }

  lemma EnsembleIsBuffer(trial: Trial, script: Script, b: Book, asked: seq<Asked>, r: Record, out: Outcome)
    requires Settled(trial, script, b, asked, r, out) && trial.kind.Blends()
    ensures InOrder(asked) && b.ensemble == Ensembling.Buffer(Chunks(asked))
  {
  }

  /** Every frame is kept once: the rollout stores the observations 0, 1, 2, ... in that order. */
  lemma FramesInOrder(trial: Trial, script: Script, b: Book, asked: seq<Asked>, r: Record, out: Outcome)
    requires Settled(trial, script, b, asked, r, out)
    ensures r.frames == Naturals(|r.frames|)
  {
  }
}
