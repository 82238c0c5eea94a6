/**
 The built-in action managers. One buffers a chunk, plays one action a step, and calls the policy again
 when the buffer is empty or a replan trigger fires; one calls the policy every step and blends every
 chunk that still predicts it; one smooths the actions of another.

 The policy and the triggers a caller supplies are inputs: for every step, a script says what the
 policy would return if it were called, and what a trigger would answer. The trial's store is an
 object that the manager and the rollout both write.
 */
module ActionManagers {
  import opened Basics
  import opened Guards
  import opened Ensembling

  datatype Termination = Termination(kind: string, reason: string)

  /** `stop` is the stop request an action, or a whole chunk, may carry in its metadata. */
  datatype Step = Step(data: Vec, terminal: Option<Termination>, stop: Option<Termination>)

  datatype Chunk = Chunk(actions: seq<Step>, terminal: Option<Termination>, stop: Option<Termination>, latency: Option<real>)

  /** What a call raised: one of the harness's own errors, any other exception, or an interrupt. */
  datatype Fault = Typed(id: nat) | Generic(id: nat) | Keyboard

  datatype ActReply = Produced(chunk: Chunk) | ActRaises(fault: Fault)
  {
    /** The call gave the manager something to return. */
    predicate Useful() {
      Produced? && (chunk.actions != [] || chunk.terminal.Some?)
    }
  }

  /** A guard changed the action of step `t`; `detail` lists its flags. */
  datatype Approval = Approval(t: nat, detail: seq<string>)

  datatype Message = Message(t: nat, text: string, source: string)

  datatype Trigger = UnreachableTarget | Custom(id: nat)

  datatype Reason = ClampedAt(step: nat) | Stated(text: nat)

  datatype Replan = Replan(t: nat, trigger: Trigger, reason: Reason)

  datatype TriggerReply = Quiet | Fires(reason: Reason) | TriggerRaises(fault: Fault)

  /** A call of the policy: what it was shown and what it returned. */
  datatype Asked = Asked(t: nat, approvals: seq<Approval>, messages: seq<Message>, replan: Option<Replan>, reply: ActReply)

  datatype Inference = Inference(latency: Option<real>, length: nat)

  /** The manager's settings: an interval is at least one. */
  datatype Settings = Settings(interval: Option<nat>, triggers: seq<Trigger>)
  {
    predicate Valid() {
      interval.Some? ==> interval.value >= 1
    }
  }

  datatype World = World(act: nat -> ActReply, custom: (nat, nat) -> TriggerReply)

  /** The trial's store, as a value. */
  datatype Book = Book(
    buffer: seq<Step>, inferences: seq<Inference>, approvals: seq<Approval>, replans: seq<Replan>,
    chunkStart: nat, ensemble: seq<Entry<Vec>>, smoothed: map<nat, Vec>,
    messages: seq<Message>, approvalsTold: nat, messagesTold: nat, replansSeen: nat, dropped: nat)

  const EMPTY := Book([], [], [], [], 0, [], map[], [], 0, 0, 0, 0)

  /** A manager: how predictions are blended and actions smoothed is a parameter. */
  datatype Kind =
    | Default(settings: Settings)
    | Ensembled(blend: (seq<Entry<Vec>>, nat) -> Vec)
    | Smoothed(key: nat, mix: (Vec, Option<Vec>) -> Vec, inner: Kind)
  {
    predicate Valid() {
      Base().Some? ==> Base().value.Valid()
    }

    /** The settings of the chunk-playing manager at the bottom, if there is one. */
    function Base(): Option<Settings> {
      match this
      case Default(settings) => Some(settings)
      case Ensembled(_) => None
      case Smoothed(_, _, inner) => inner.Base()
    }

    /** The manager at the bottom blends chunks. */
    predicate Blends() {
      match this
      case Default(_) => false
      case Ensembled(_) => true
      case Smoothed(_, _, inner) => inner.Blends()
    }
  }

  // ---------------------------------------------------------------- the pieces

  /** The actions the manager will play of a chunk, the last one carrying the chunk's terminal. */
  function Taken(s: Settings, c: Chunk): (r: seq<Step>)
    ensures |r| <= |c.actions|
    ensures s.Valid() && c.actions != [] ==> r != []
  {
    var n := if s.interval.Some? && s.interval.value < |c.actions| then s.interval.value else |c.actions|;
    Marked(c.actions[..n], c.terminal)
  }

  function Marked(actions: seq<Step>, terminal: Option<Termination>): (r: seq<Step>)
    ensures |r| == |actions|
  {
    if actions == [] || terminal.None? then actions
    else actions[|actions| - 1 := actions[|actions| - 1].(terminal := terminal)]
  }

  predicate IsBoundsClamp(a: Approval, start: nat) {
    a.t >= start && CLAMPED in a.detail
  }

  /** The step of the first bounds clamp since the chunk began. */
  function FirstClamp(approvals: seq<Approval>, start: nat): (r: Option<nat>)
    ensures r.None? <==> forall a :: a in approvals ==> !IsBoundsClamp(a, start)
    ensures r.Some? ==> exists a :: a in approvals && IsBoundsClamp(a, start) && a.t == r.value
  {
    if approvals == [] then None
    else if IsBoundsClamp(approvals[0], start) then Some(approvals[0].t)
    else FirstClamp(approvals[1..], start)
  }

  function Answer(trigger: Trigger, w: World, b: Book, t: nat): TriggerReply {
    match trigger
    case Custom(id) => w.custom(id, t)
    case UnreachableTarget =>
      var clamp := FirstClamp(b.approvals, b.chunkStart);
      if clamp.Some? then Fires(ClampedAt(clamp.value)) else Quiet
  }

  /** The first trigger that does not stay quiet, and its answer. */
  function Scan(triggers: seq<Trigger>, w: World, b: Book, t: nat): (r: Option<(Trigger, TriggerReply)>)
    ensures r.Some? ==> !r.value.1.Quiet? && r.value.1 == Answer(r.value.0, w, b, t)
  {
    if triggers == [] then None
    else
      var answer := Answer(triggers[0], w, b, t);
      if answer.Quiet? then Scan(triggers[1..], w, b, t) else Some((triggers[0], answer))
  }

  datatype Reply = Play(action: Step) | End(terminal: Termination) | Empty | Broke(fault: Fault)
  {
    predicate Returned() {
      Play? || End?
    }
  }

  /** One call of the manager: the book after it, the policy calls it made, what it returned. */
  datatype Turn = Turn(book: Book, asked: seq<Asked>, reply: Reply)

  datatype Shown = Shown(approvals: seq<Approval>, messages: seq<Message>)

  function Ask(s: Settings, w: World, b: Book, shown: Shown, t: nat, replan: Option<Replan>): Turn
    requires s.Valid()
  {
    var reply := w.act(t);
    var asked := [Asked(t, shown.approvals, shown.messages, replan, reply)];
    var b := b.(chunkStart := t);
    if reply.ActRaises? then Turn(b, asked, Broke(reply.fault))
    else if reply.chunk.actions == [] then
      if reply.chunk.terminal.None? then Turn(b, asked, Empty)
      else
        Turn(b.(inferences := b.inferences + [Inference(reply.chunk.latency, 0)]), asked, End(reply.chunk.terminal.value))
    else
      var taken := Taken(s, reply.chunk);
      Turn(b.(buffer := taken[1..], inferences := b.inferences + [Inference(reply.chunk.latency, |taken|)]),
           asked, Play(taken[0]))
  }

  function Next(s: Settings, w: World, b: Book, shown: Shown, t: nat): Turn
    requires s.Valid()
  {
    if b.buffer == [] then Ask(s, w, b, shown, t, None)
    else
      var scan := Scan(s.triggers, w, b, t);
      if scan.None? then Turn(b.(buffer := b.buffer[1..]), [], Play(b.buffer[0]))
      else if scan.value.1.TriggerRaises? then Turn(b, [], Broke(scan.value.1.fault))
      else
        var replan := Replan(t, scan.value.0, scan.value.1.reason);
        Ask(s, w, b.(buffer := [], replans := b.replans + [replan], dropped := b.dropped + |b.buffer|), shown, t, Some(replan))
  }

  function DataOf(actions: seq<Step>): seq<Vec> {
    seq(|actions|, i requires 0 <= i < |actions| => actions[i].data)
  }

  function NextBlended(blend: (seq<Entry<Vec>>, nat) -> Vec, w: World, b: Book, shown: Shown, t: nat): Turn {
    var reply := w.act(t);
    var asked := [Asked(t, shown.approvals, shown.messages, None, reply)];
    if reply.ActRaises? then Turn(b, asked, Broke(reply.fault))
    else
      var chunk := reply.chunk;
      var told := b.(inferences := b.inferences + [Inference(chunk.latency, |chunk.actions|)]);
      if chunk.actions == [] then
        if chunk.terminal.None? then Turn(b, asked, Empty) else Turn(told, asked, End(chunk.terminal.value))
      else
        var buffer := Queried(b.ensemble, Entry(t, DataOf(chunk.actions)));
        Turn(told.(ensemble := buffer), asked, Play(Step(blend(buffer, t), chunk.terminal, chunk.stop)))
  }

  function NextOf(k: Kind, w: World, b: Book, shown: Shown, t: nat): Turn
    requires k.Valid()
    decreases k
  {
    match k
    case Default(s) => Next(s, w, b, shown, t)
    case Ensembled(blend) => NextBlended(blend, w, b, shown, t)
    case Smoothed(key, mix, inner) =>
      var turn := NextOf(inner, w, b, shown, t);
      if !turn.reply.Play? then turn
      else
        var prev := if key in turn.book.smoothed then Some(turn.book.smoothed[key]) else None;
        var data := mix(turn.reply.action.data, prev);
        Turn(turn.book.(smoothed := turn.book.smoothed[key := data]), turn.asked, Play(turn.reply.action.(data := data)))
  }

  // ---------------------------------------------------------------- the objects

  class Store {
    var buffer: seq<Step>
    var inferences: seq<Inference>
    var approvals: seq<Approval>
    var replans: seq<Replan>
    var chunkStart: nat
    var ensemble: seq<Entry<Vec>>
    var smoothed: map<nat, Vec>
    var messages: seq<Message>
    var approvalsTold: nat
    var messagesTold: nat
    var replansSeen: nat
    var dropped: nat  // kept for the accounts only

    constructor ()
      ensures State() == EMPTY
    {
      buffer, inferences, approvals, replans, chunkStart, messages := [], [], [], [], 0, [];
      ensemble, smoothed, approvalsTold, messagesTold, replansSeen, dropped := [], map[], 0, 0, 0, 0;
    }

    function State(): Book
      reads this
    {
      Book(buffer, inferences, approvals, replans, chunkStart, ensemble, smoothed,
           messages, approvalsTold, messagesTold, replansSeen, dropped)
    }
  }

  /** Stands in for the policy and keeps every call. */
  class Tap {
    const act: nat -> ActReply
    var asked: seq<Asked>

    constructor (act: nat -> ActReply)
      ensures this.act == act && asked == []
    {
      this.act := act;
      asked := [];
    }

    method Act(t: nat, shown: Shown, replan: Option<Replan>) returns (reply: ActReply)
      modifies this
      ensures reply == act(t) && asked == old(asked) + [Asked(t, shown.approvals, shown.messages, replan, reply)]
    {
      reply := act(t);
      asked := asked + [Asked(t, shown.approvals, shown.messages, replan, reply)];
    }
  }

  class ActionManager {
    const kind: Kind
    const custom: (nat, nat) -> TriggerReply

    constructor (kind: Kind, custom: (nat, nat) -> TriggerReply)
      requires kind.Valid()
      ensures this.kind == kind && this.custom == custom
    {
      this.kind, this.custom := kind, custom;
    }

    /** Chooses the action of step `t`. */
    method NextAction(tap: Tap, shown: Shown, t: nat, store: Store) returns (reply: Reply)
      requires kind.Valid()
      modifies tap, store
      ensures
        var turn := NextOf(kind, World(tap.act, custom), old(store.State()), shown, t);
        store.State() == turn.book && tap.asked == old(tap.asked) + turn.asked && reply == turn.reply
    {
      reply := Dispatch(kind, tap, shown, t, store);
    }

    method Dispatch(k: Kind, tap: Tap, shown: Shown, t: nat, store: Store) returns (reply: Reply)
      requires k.Valid()
      modifies tap, store
      ensures
        var turn := NextOf(k, World(tap.act, custom), old(store.State()), shown, t);
        store.State() == turn.book && tap.asked == old(tap.asked) + turn.asked && reply == turn.reply
      decreases k
    {
      hide Next, NextBlended;
      match k
      case Default(s) =>
        reply := PlayChunk(s, tap, shown, t, store);
      case Ensembled(blend) =>
        reply := QueryAndBlend(blend, tap, shown, t, store);
      case Smoothed(key, mix, inner) =>
        reply := Dispatch(inner, tap, shown, t, store);
        if reply.Play? {
          var prev := if key in store.smoothed then Some(store.smoothed[key]) else None;
          var data := mix(reply.action.data, prev);
          store.smoothed := store.smoothed[key := data];
          reply := Play(reply.action.(data := data));
        }
    }

    /** Queries once for step `t` and blends every retained prediction for that step. */
    method QueryAndBlend(blend: (seq<Entry<Vec>>, nat) -> Vec, tap: Tap, shown: Shown, t: nat, store: Store)
      returns (reply: Reply)
      modifies tap, store
      ensures
        var turn := NextBlended(blend, World(tap.act, custom), old(store.State()), shown, t);
        store.State() == turn.book && tap.asked == old(tap.asked) + turn.asked && reply == turn.reply
    {
      var answer := tap.Act(t, shown, None);
      if answer.ActRaises? {
        return Broke(answer.fault);
      }
      var chunk := answer.chunk;
      if chunk.actions == [] {
        if chunk.terminal.None? {
          return Empty;
        }
        store.inferences := store.inferences + [Inference(chunk.latency, 0)];
        return End(chunk.terminal.value);
      }
      store.inferences := store.inferences + [Inference(chunk.latency, |chunk.actions|)];
      store.ensemble := Queried(store.ensemble, Entry(t, DataOf(chunk.actions)));
      reply := Play(Step(blend(store.ensemble, t), chunk.terminal, chunk.stop));
    }

    method ShouldReplan(trigger: Trigger, t: nat, store: Store) returns (answer: TriggerReply)
      ensures forall act: nat -> ActReply :: answer == Answer(trigger, World(act, custom), store.State(), t)
    {
      match trigger
      case Custom(id) =>
        answer := custom(id, t);
      case UnreachableTarget =>
        answer := Quiet;
        var i := 0;
        while i < |store.approvals| && answer.Quiet?
          invariant 0 <= i <= |store.approvals|
          invariant
            if answer.Quiet? then FirstClamp(store.approvals, store.chunkStart) == FirstClamp(store.approvals[i..], store.chunkStart)
            else FirstClamp(store.approvals, store.chunkStart).Some?
                 && answer == Fires(ClampedAt(FirstClamp(store.approvals, store.chunkStart).value))
          decreases |store.approvals| - i, answer.Quiet?
        {
          var approval := store.approvals[i];
          if approval.t >= store.chunkStart && CLAMPED in approval.detail {
            answer := Fires(ClampedAt(approval.t));
          } else {
            assert store.approvals[i..][1..] == store.approvals[i + 1..];
            i := i + 1;
          }
        }
    }

    method Triggered(triggers: seq<Trigger>, t: nat, store: Store) returns (found: Option<(Trigger, TriggerReply)>)
      ensures
        forall act: nat -> ActReply :: found == Scan(triggers, World(act, custom), store.State(), t)
    {
      for i := 0 to |triggers|
        invariant
          forall act: nat -> ActReply ::
            Scan(triggers, World(act, custom), store.State(), t)
            == Scan(triggers[i..], World(act, custom), store.State(), t)
      {
        assert triggers[i..][1..] == triggers[i + 1..];
        var answer := ShouldReplan(triggers[i], t, store);
        if !answer.Quiet? {
          return Some((triggers[i], answer));
        }
      }
      found := None;
    }

    /** Calls the policy and plays the first action of the chunk it returns. */
    method AskPolicy(settings: Settings, tap: Tap, shown: Shown, t: nat, replan: Option<Replan>, store: Store) returns (reply: Reply)
      requires settings.Valid() && store.buffer == []
      modifies tap, store
      ensures
        var turn := Ask(settings, World(tap.act, custom), old(store.State()), shown, t, replan);
        store.State() == turn.book && tap.asked == old(tap.asked) + turn.asked && reply == turn.reply
    {
      store.chunkStart := t;
      var answer := tap.Act(t, shown, replan);
      if answer.ActRaises? {
        return Broke(answer.fault);
      }
      var chunk := answer.chunk;
      if chunk.actions == [] {
        if chunk.terminal.None? {
          return Empty;
        }
        store.inferences := store.inferences + [Inference(chunk.latency, 0)];
        return End(chunk.terminal.value);
      }
      var taken := Taken(settings, chunk);
      store.buffer := taken;
      store.inferences := store.inferences + [Inference(chunk.latency, |taken|)];
      reply := PopNext(store);
    }

    method PopNext(store: Store) returns (reply: Reply)
      requires store.buffer != []
      modifies store`buffer
      ensures reply == Play(old(store.buffer)[0]) && store.buffer == old(store.buffer)[1..]
    {
      reply := Play(store.buffer[0]);
      store.buffer := store.buffer[1..];
    }

    /** Plays buffered actions until the chunk or interval ends, or a trigger fires. */
    method PlayChunk(settings: Settings, tap: Tap, shown: Shown, t: nat, store: Store) returns (reply: Reply)
      requires settings.Valid()
      modifies tap, store
      ensures
        var turn := Next(settings, World(tap.act, custom), old(store.State()), shown, t);
        store.State() == turn.book && tap.asked == old(tap.asked) + turn.asked && reply == turn.reply
    {
      ghost var b := store.State();
      ghost var w := World(tap.act, custom);
      assert settings.triggers == [] ==> Scan(settings.triggers, w, b, t) == None;
      hide Scan, Ask;
      ConcatEmpty(tap.asked);
      var replan := None;
      if store.buffer != [] && settings.triggers != [] {
        var found := Triggered(settings.triggers, t, store);
        if found.Some? {
          if found.value.1.TriggerRaises? {
            return Broke(found.value.1.fault);
          }
          replan := Some(Replan(t, found.value.0, found.value.1.reason));
          store.replans := store.replans + [replan.value];
          store.dropped := store.dropped + |store.buffer|;
          store.buffer := [];
        }
      }
      if store.buffer == [] {
        reply := AskPolicy(settings, tap, shown, t, replan, store);
      } else {
        reply := PopNext(store);
      }
    }
  }

  // ---------------------------------------------------------------- what the manager does over a trial

  function ReplansOf(asked: seq<Asked>): seq<Replan> {
    if asked == [] then []
    else
      var last := asked[|asked| - 1].replan;
      ReplansOf(asked[..|asked| - 1]) + (if last.Some? then [last.value] else [])
  }

  /** What is recorded of a chunk: the actions buffered of it. */
  function InferenceOf(base: Option<Settings>, c: Chunk): Inference {
    Inference(c.latency, if base.Some? then |Taken(base.value, c)| else |c.actions|)
  }

  function InferencesOf(s: Option<Settings>, asked: seq<Asked>): seq<Inference> {
    if asked == [] then []
    else
      var last := asked[|asked| - 1].reply;
      InferencesOf(s, asked[..|asked| - 1]) + (if last.Useful() then [InferenceOf(s, last.chunk)] else [])
  }

  function Total(inferences: seq<Inference>): nat {
    if inferences == [] then 0 else Total(inferences[..|inferences| - 1]) + inferences[|inferences| - 1].length
  }

  /** The policy is called at most once a step, at increasing steps. */
  ghost predicate InOrder(asked: seq<Asked>) {
    forall i, j :: 0 <= i < j < |asked| ==> asked[i].t < asked[j].t
  }

  /** A chunk is cut short by a trigger and by nothing else; the replan was made at the step of the call
      it led to, and an unreachable-target replan cites a clamp of the chunk it cut. */
  predicate Cited(s: Settings, asked: seq<Asked>, j: nat)
    requires j < |asked|
  {
    var replan := asked[j].replan;
    && (j == 0 ==> replan.None?)
    && (j > 0
        ==>
          && asked[j - 1].reply.Produced?
          && asked[j].t <= asked[j - 1].t + |Taken(s, asked[j - 1].reply.chunk)|
          && (replan.None? <==> asked[j].t == asked[j - 1].t + |Taken(s, asked[j - 1].reply.chunk)|))
    && (replan.Some?
        ==>
          && replan.value.t == asked[j].t
          && (replan.value.trigger.UnreachableTarget?
              ==>
                && replan.value.reason.ClampedAt?
                && asked[j - 1].t <= replan.value.reason.step < asked[j].t))
  }

  ghost predicate Cites(s: Settings, asked: seq<Asked>) {
    forall j :: 0 <= j < |asked| ==> Cited(s, asked, j)
  }

  /** The accounts of the store: replans and chunk lengths are those of the calls made, and every
      action of a chunk was played, is still buffered, or was dropped by a trigger. */
  ghost predicate Balanced(s: Settings, b: Book, asked: seq<Asked>, played: nat) {
    && b.replans == ReplansOf(asked) && b.inferences == InferencesOf(Some(s), asked)
    && Total(b.inferences) == played + |b.buffer| + b.dropped
    && InOrder(asked) && Cites(s, asked)
  }

  /** Action `t` is the one at index t - start of the latest chunk, cut at the interval. */
  ghost predicate PlaysIndex(s: Settings, asked: seq<Asked>, t: nat, action: Step) {
    && asked != []
    && var last := asked[|asked| - 1];
       && last.reply.Produced? && last.t <= t < last.t + |Taken(s, last.reply.chunk)|
       && action == Taken(s, last.reply.chunk)[t - last.t]
  }

  /** Between two calls of the manager, the buffer is what is left of the latest chunk. */
  ghost predicate Kept(s: Settings, b: Book, asked: seq<Asked>, t: nat) {
    && Balanced(s, b, asked, t)
    && (asked == [] ==> b.buffer == [] && t == 0)
    && (asked != []
        ==>
          var last := asked[|asked| - 1];
          && last.reply.Produced? && b.chunkStart == last.t < t <= last.t + |Taken(s, last.reply.chunk)|
          && b.buffer == Taken(s, last.reply.chunk)[t - last.t..])
  }

  ghost predicate ApprovedBefore(b: Book, t: nat) {
    forall a :: a in b.approvals ==> a.t < t
  }

  lemma AskPush(s: Settings, asked: seq<Asked>, x: Asked)
    ensures ReplansOf(asked + [x]) == ReplansOf(asked) + (if x.replan.Some? then [x.replan.value] else [])
    ensures
      InferencesOf(Some(s), asked + [x])
      == InferencesOf(Some(s), asked) + (if x.reply.Useful() then [InferenceOf(Some(s), x.reply.chunk)] else [])
  {
    assert (asked + [x])[..|asked|] == asked;
  }

  lemma TotalPush(inferences: seq<Inference>, x: Inference)
    ensures Total(inferences + [x]) == Total(inferences) + x.length
  {
    assert (inferences + [x])[..|inferences|] == inferences;
  }

  /** What a call of the policy leaves, for a store whose buffer was empty. */
  ghost predicate AskedOnce(s: Settings, b: Book, x: Asked, turn: Turn) {
    && turn.asked == [x] && turn.book.replans == b.replans && turn.book.dropped == b.dropped
    && turn.book.chunkStart == x.t
    && turn.book.inferences == b.inferences + (if x.reply.Useful() then [InferenceOf(Some(s), x.reply.chunk)] else [])
    && Total(turn.book.inferences) == Total(b.inferences) + |turn.book.buffer| + (if turn.reply.Play? then 1 else 0)
    && (turn.reply.Play?
        ==>
          && x.reply.Useful() && Taken(s, x.reply.chunk) != []
          && turn.reply.action == Taken(s, x.reply.chunk)[0] && turn.book.buffer == Taken(s, x.reply.chunk)[1..])
  }

  lemma AskIsOnce(s: Settings, w: World, b: Book, shown: Shown, t: nat, replan: Option<Replan>)
    requires s.Valid() && b.buffer == []
    ensures
      AskedOnce(s, b, Asked(t, shown.approvals, shown.messages, replan, w.act(t)), Ask(s, w, b, shown, t, replan))
  {
    var reply := w.act(t);
    ConcatEmpty(b.inferences);
    hide Total, Taken;
    if reply.Useful() {
      NothingTaken(s, reply.chunk);
      TotalPush(b.inferences, InferenceOf(Some(s), reply.chunk));
    }
  }

  lemma NothingTaken(s: Settings, c: Chunk)
    requires s.Valid()
    ensures |Taken(s, c)| == 0 <==> c.actions == []
  {
  }

  lemma AskBalances(s: Settings, b: Book, asked: seq<Asked>, x: Asked, turn: Turn)
    requires AskedOnce(s, b, x, turn) && Cites(s, asked + [x])
    requires b.replans == ReplansOf(asked) + (if x.replan.Some? then [x.replan.value] else [])
    requires b.inferences == InferencesOf(Some(s), asked) && Total(b.inferences) == x.t + b.dropped
    requires InOrder(asked) && (asked != [] ==> asked[|asked| - 1].t < x.t)
    ensures Balanced(s, turn.book, asked + [x], if turn.reply.Play? then x.t + 1 else x.t)
  {
    hide Cites, InOrder, ReplansOf, InferencesOf, InferenceOf, Taken, Total;
    AskPush(s, asked, x);
    InOrderPush(asked, x);
  }

  lemma InOrderPush(asked: seq<Asked>, x: Asked)
    requires InOrder(asked) && (asked != [] ==> asked[|asked| - 1].t < x.t)
    ensures InOrder(asked + [x])
  {
  }

  /** The call that made the chunk plays its first action. */
  lemma AskPlays(s: Settings, b: Book, asked: seq<Asked>, x: Asked, turn: Turn)
    requires AskedOnce(s, b, x, turn) && turn.reply.Play?
    requires Balanced(s, turn.book, asked + [x], x.t + 1)
    ensures Kept(s, turn.book, asked + [x], x.t + 1) && PlaysIndex(s, asked + [x], x.t, turn.reply.action)
  {
    hide Balanced, InferenceOf, Taken, Total;
    assert (asked + [x])[|asked + [x]| - 1] == x;
  }

  lemma AskKeeps(s: Settings, b: Book, asked: seq<Asked>, x: Asked, turn: Turn)
    requires AskedOnce(s, b, x, turn) && Cites(s, asked + [x])
    requires b.replans == ReplansOf(asked) + (if x.replan.Some? then [x.replan.value] else [])
    requires b.inferences == InferencesOf(Some(s), asked) && Total(b.inferences) == x.t + b.dropped
    requires InOrder(asked) && (asked != [] ==> asked[|asked| - 1].t < x.t)
    ensures Balanced(s, turn.book, asked + [x], if turn.reply.Play? then x.t + 1 else x.t)
    ensures
      turn.reply.Play?
      ==>
        Kept(s, turn.book, asked + [x], x.t + 1) && PlaysIndex(s, asked + [x], x.t, turn.reply.action)
  {
    hide AskedOnce, Balanced, Kept, PlaysIndex, Cites, InOrder, ReplansOf, InferencesOf, Total;
    AskBalances(s, b, asked, x, turn);
    if turn.reply.Play? {
      AskPlays(s, b, asked, x, turn);
    }
  }

  /**
   One call of the manager keeps the accounts. It plays index t - start of the latest chunk; it calls
   the policy at most once; a fired trigger is always followed by a call.
   */
  lemma NextKeeps(s: Settings, w: World, b: Book, shown: Shown, t: nat, asked: seq<Asked>)
    requires s.Valid() && Kept(s, b, asked, t) && ApprovedBefore(b, t)
    ensures
      var turn := Next(s, w, b, shown, t);
      var now := asked + turn.asked;
      && |turn.asked| <= 1 && Balanced(s, turn.book, now, if turn.reply.Play? then t + 1 else t)
      && (turn.reply.Play? ==> Kept(s, turn.book, now, t + 1) && PlaysIndex(s, now, t, turn.reply.action))
      && (|turn.book.replans| > |b.replans| ==> |turn.asked| == 1)
  {
    hide Balanced, PlaysIndex, ReplansOf, InferencesOf, Total, Taken, InOrder, Cites, AskedOnce, Kept;
    KeptMeans(s, b, asked, t);
    if b.buffer == [] {
      ConcatEmpty(ReplansOf(asked));
      DoneCites(s, b, asked, t, Asked(t, shown.approvals, shown.messages, None, w.act(t)));
      CitesPush(s, asked, Asked(t, shown.approvals, shown.messages, None, w.act(t)));
      AskIsOnce(s, w, b, shown, t, None);
      AskKeeps(s, b, asked, Asked(t, shown.approvals, shown.messages, None, w.act(t)), Next(s, w, b, shown, t));
    } else {
      var scan := Scan(s.triggers, w, b, t);
      ConcatEmpty(asked);
      if scan.None? {
        PlayKeeps(s, b, asked, t);
      } else if scan.value.1.Fires? {
        var replan := Replan(t, scan.value.0, scan.value.1.reason);
        var cut := b.(buffer := [], replans := b.replans + [replan], dropped := b.dropped + |b.buffer|);
        var x := Asked(t, shown.approvals, shown.messages, Some(replan), w.act(t));
        FiredCites(s, w, b, asked, t, scan.value.0, x);
        CitesPush(s, asked, x);
        AskIsOnce(s, w, cut, shown, t, Some(replan));
        AskKeeps(s, cut, asked, x, Next(s, w, b, shown, t));
      }
    }
  }

  lemma KeptMeans(s: Settings, b: Book, asked: seq<Asked>, t: nat)
    requires Kept(s, b, asked, t)
    ensures Balanced(s, b, asked, t)
    ensures b.replans == ReplansOf(asked) && b.inferences == InferencesOf(Some(s), asked)
    ensures Total(b.inferences) == t + |b.buffer| + b.dropped && InOrder(asked) && Cites(s, asked)
    ensures asked != [] ==> asked[|asked| - 1].t < t
  {
  }

  /** The buffered action is the next one of the latest chunk. */
  lemma PlayKeeps(s: Settings, b: Book, asked: seq<Asked>, t: nat)
    requires Kept(s, b, asked, t) && b.buffer != []
    ensures Kept(s, b.(buffer := b.buffer[1..]), asked, t + 1) && PlaysIndex(s, asked, t, b.buffer[0])
    ensures Balanced(s, b.(buffer := b.buffer[1..]), asked, t + 1)
  {
    hide ReplansOf, InferencesOf, Total, Taken, InOrder, Cites;
  }

  lemma FiredCites(s: Settings, w: World, b: Book, asked: seq<Asked>, t: nat, trigger: Trigger, x: Asked)
    requires Kept(s, b, asked, t) && b.buffer != [] && ApprovedBefore(b, t)
    requires Answer(trigger, w, b, t).Fires? && x.t == t
    requires x.replan == Some(Replan(t, trigger, Answer(trigger, w, b, t).reason))
    ensures Cited(s, asked + [x], |asked|)
  {
    hide Taken, Balanced;
  }

  lemma DoneCites(s: Settings, b: Book, asked: seq<Asked>, t: nat, x: Asked)
    requires Kept(s, b, asked, t) && b.buffer == [] && x.t == t && x.replan.None?
    ensures Cited(s, asked + [x], |asked|)
  {
    hide Taken, Balanced;
  }

  lemma CitesPush(s: Settings, asked: seq<Asked>, x: Asked)
    requires Cites(s, asked) && Cited(s, asked + [x], |asked|)
    ensures Cites(s, asked + [x])
  {
    var now := asked + [x];
    forall j | 0 <= j < |now|
      ensures Cited(s, now, j)
    {
      if j < |asked| {
        assert Cited(s, asked, j);
      }
    }
  }

  /** One clamp causes at most one unreachable-target replan. */
  lemma OneClampOneReplan(s: Settings, asked: seq<Asked>, i: nat, j: nat)
    requires InOrder(asked) && Cites(s, asked) && i < j < |asked|
    requires asked[i].replan.Some? && asked[i].replan.value.trigger.UnreachableTarget?
    requires asked[j].replan.Some? && asked[j].replan.value.trigger.UnreachableTarget?
    ensures
      var first, second := asked[i].replan.value.reason, asked[j].replan.value.reason;
      first.ClampedAt? && second.ClampedAt? && first.step < second.step
  {
    assert Cited(s, asked, i) && Cited(s, asked, j);
    assert asked[i].t <= asked[j - 1].t;
  }

  ghost predicate NoOwnTerminal(c: Chunk) {
    forall a :: a in c.actions ==> a.terminal.None?
  }

  /** A chunk's terminal rides on the last action played of it, and on no other. */
  lemma TerminalRidesLast(s: Settings, c: Chunk, i: nat)
    requires NoOwnTerminal(c) && i < |Taken(s, c)|
    ensures Taken(s, c)[i].data == c.actions[i].data
    ensures Taken(s, c)[i].terminal == if i == |Taken(s, c)| - 1 then c.terminal else None
  {
    assert c.actions[i] in c.actions;
  }

  // ---------------------------------------------------------------- what every manager does

  /**
   What the rollout relies on, for every built-in manager: the policy is called at most once, shown
   what the manager was shown; a call that gave something is recorded once, a replan once; nothing
   else of the store is touched.
   */
  ghost predicate Feeds(k: Kind, w: World, b: Book, shown: Shown, t: nat, turn: Turn) {
    && |turn.asked| <= 1
    && (forall x :: x in turn.asked ==> x == Asked(t, shown.approvals, shown.messages, x.replan, w.act(t)))
    && turn.book.replans == b.replans + ReplansOf(turn.asked)
    && turn.book.inferences == b.inferences + InferencesOf(k.Base(), turn.asked)
    && (turn.asked != [] ==> (turn.reply.Returned() <==> turn.asked[0].reply.Useful()))
    && (turn.reply.End?
        ==>
          && turn.asked != [] && turn.asked[0].reply.Useful() && turn.asked[0].reply.chunk.actions == []
          && turn.asked[0].reply.chunk.terminal == Some(turn.reply.terminal))
    && turn.book.(replans := b.replans, inferences := b.inferences, buffer := b.buffer, chunkStart := b.chunkStart,
                  ensemble := b.ensemble, smoothed := b.smoothed, dropped := b.dropped) == b
  }

  lemma OneAsk(base: Option<Settings>, x: Asked)
    ensures ReplansOf([x]) == (if x.replan.Some? then [x.replan.value] else []) && ReplansOf([]) == []
    ensures InferencesOf(base, [x]) == (if x.reply.Useful() then [InferenceOf(base, x.reply.chunk)] else [])
    ensures InferencesOf(base, []) == []
  {
    assert [x][..0] == [];
  }

  lemma {:induction false} ManagersFeed(k: Kind, w: World, b: Book, shown: Shown, t: nat)
    requires k.Valid()
    ensures Feeds(k, w, b, shown, t, NextOf(k, w, b, shown, t))
    decreases k
  {
    ConcatEmpty(b.replans);
    ConcatEmpty(b.inferences);
    match k
    case Smoothed(_, _, inner) =>
      hide Next, NextBlended, ReplansOf, InferencesOf;
      ManagersFeed(inner, w, b, shown, t);
    case Ensembled(_) =>
      OneAsk(None, Asked(t, shown.approvals, shown.messages, None, w.act(t)));
      hide ReplansOf, InferencesOf;
    case Default(s) =>
      DefaultFeeds(s, w, b, shown, t);
  }

  lemma DefaultFeeds(s: Settings, w: World, b: Book, shown: Shown, t: nat)
    requires s.Valid()
    ensures Feeds(Default(s), w, b, shown, t, Next(s, w, b, shown, t))
  {
    ConcatEmpty(b.replans);
    ConcatEmpty(b.inferences);
    var scan := Scan(s.triggers, w, b, t);
    var replan := if b.buffer != [] && scan.Some? && scan.value.1.Fires? then Some(Replan(t, scan.value.0, scan.value.1.reason)) else None;
    OneAsk(Some(s), Asked(t, shown.approvals, shown.messages, replan, w.act(t)));
    hide ReplansOf, InferencesOf, Scan, Taken;
  }

  /** The chunks the policy returned, with the steps they were asked for at. */
  function Chunks(asked: seq<Asked>): seq<Entry<Vec>> {
    if asked == [] then []
    else
      var last := asked[|asked| - 1];
      Chunks(asked[..|asked| - 1])
      + (if last.reply.Produced? && last.reply.chunk.actions != [] then [Entry(last.t, DataOf(last.reply.chunk.actions))]
         else [])
  }

  /** A blending manager's buffer is what the whole history of chunks leaves in it. */
  ghost predicate Blended(k: Kind, b: Book, asked: seq<Asked>) {
    k.Blends() ==> InOrder(asked) && b.ensemble == Buffer(Chunks(asked))
  }

  lemma ChunksPush(asked: seq<Asked>, x: Asked)
    ensures
      Chunks(asked + [x])
      == Chunks(asked)
         + (if x.reply.Produced? && x.reply.chunk.actions != [] then [Entry(x.t, DataOf(x.reply.chunk.actions))] else [])
  {
    assert (asked + [x])[..|asked|] == asked;
  }

  lemma {:induction false} BlendKeeps(k: Kind, w: World, b: Book, shown: Shown, t: nat, asked: seq<Asked>)
    requires k.Valid() && Blended(k, b, asked) && (asked != [] ==> asked[|asked| - 1].t < t)
    ensures
      var turn := NextOf(k, w, b, shown, t);
      Blended(k, turn.book, asked + turn.asked)
    decreases k
  {
    match k
    case Default(_) =>
    case Smoothed(_, _, inner) =>
      hide NextBlended, Next, Buffer, Chunks, InOrder;
      BlendKeeps(inner, w, b, shown, t, asked);
    case Ensembled(blend) =>
      hide NextBlended, Buffer, Chunks, InOrder, Queried;
      var x := Asked(t, shown.approvals, shown.messages, None, w.act(t));
      QueryBlends(blend, w, b, shown, t);
      InOrderPush(asked, x);
      ChunksPush(asked, x);
      if x.reply.Produced? && x.reply.chunk.actions != [] {
        BufferPush(Chunks(asked), Entry(t, DataOf(x.reply.chunk.actions)));
      } else {
        ConcatEmpty(Chunks(asked));
      }
  }

  lemma QueryBlends(blend: (seq<Entry<Vec>>, nat) -> Vec, w: World, b: Book, shown: Shown, t: nat)
    ensures
      var turn, reply := NextBlended(blend, w, b, shown, t), w.act(t);
      && turn.asked == [Asked(t, shown.approvals, shown.messages, None, reply)]
      && turn.book.ensemble
         == if reply.Produced? && reply.chunk.actions != [] then Queried(b.ensemble, Entry(t, DataOf(reply.chunk.actions)))
            else b.ensemble
  {
    hide Queried;
  }

  lemma BufferPush(history: seq<Entry<Vec>>, e: Entry<Vec>)
    ensures Buffer(history + [e]) == Queried(Buffer(history), e)
  {
    assert (history + [e])[..|history|] == history;
  }

  /** Such a history is one of queries at increasing steps, so the buffer lost nothing: it holds exactly
      the chunks that cover the latest query's step. */
  lemma {:induction false} ChunksAreHistory(asked: seq<Asked>)
    requires InOrder(asked)
    ensures History(Chunks(asked))
    ensures Chunks(asked) != [] ==> Chunks(asked)[|Chunks(asked)| - 1].q <= asked[|asked| - 1].t
  {
    hide History, InOrder;
    if asked == [] {
      NoHistory();
    } else {
      hide Chunks;
      var front, last := asked[..|asked| - 1], asked[|asked| - 1];
      assert asked == front + [last];
      InOrderFront(asked);
      ChunksAreHistory(front);
      ChunksPush(front, last);
      if last.reply.Produced? && last.reply.chunk.actions != [] {
        var e := Entry(last.t, DataOf(last.reply.chunk.actions));
        assert e.acts != [];
        HistoryPush(Chunks(front), e);
      } else {
        ConcatEmpty(Chunks(front));
      }
    }
  }

  lemma NoHistory()
    ensures History<Vec>([])
  {
  }

  lemma InOrderFront(asked: seq<Asked>)
    requires InOrder(asked) && asked != []
    ensures
      var front, last := asked[..|asked| - 1], asked[|asked| - 1];
      InOrder(front) && (front != [] ==> front[|front| - 1].t < last.t)
  {
  }

  lemma HistoryPush(history: seq<Entry<Vec>>, e: Entry<Vec>)
    requires History(history) && e.acts != [] && (history != [] ==> history[|history| - 1].q < e.q)
    ensures History(history + [e])
  {
  }

  /** What a call of the manager that fails fails of: the policy raised or returned nothing, or, with no
      call of the policy, the first trigger that was not quiet raised and the store is as it was. */
  ghost predicate FailsOf(k: Kind, w: World, b: Book, t: nat, turn: Turn) {
    && (turn.asked != [] ==> turn.asked[0].reply == w.act(t))
    && (turn.asked != [] && turn.reply.Broke? ==> turn.asked[0].reply == ActRaises(turn.reply.fault))
    && (turn.reply.Empty? ==> turn.asked != [] && w.act(t).Produced? && w.act(t).chunk.actions == []
                              && w.act(t).chunk.terminal.None?)
    && (turn.asked == [] && turn.reply.Broke?
        ==>
          && turn.book == b && k.Base().Some? && b.buffer != []
          && var found := Scan(k.Base().value.triggers, w, b, t);
             found.Some? && found.value.1 == TriggerRaises(turn.reply.fault))
  }

  lemma {:induction false} TurnFails(k: Kind, w: World, b: Book, shown: Shown, t: nat)
    requires k.Valid()
    ensures FailsOf(k, w, b, t, NextOf(k, w, b, shown, t))
    decreases k
  {
    match k
    case Smoothed(_, _, inner) =>
      hide Next, NextBlended, Scan;
      TurnFails(inner, w, b, shown, t);
    case _ =>
      hide Scan, Taken;
  }

  /** The action returned is the one at the index, with other values only if it was smoothed. */
  ghost predicate PlaysFor(k: Kind, s: Settings, asked: seq<Asked>, t: nat, action: Step) {
    exists raw :: PlaysIndex(s, asked, t, action.(data := raw)) && (k.Default? ==> raw == action.data)
  }

  /** Whatever smooths it, the chunk-playing manager at the bottom keeps its accounts and its index. */
  lemma {:induction false} BaseKeeps(k: Kind, w: World, b: Book, shown: Shown, t: nat, asked: seq<Asked>)
    requires k.Valid() && k.Base().Some? && Kept(k.Base().value, b, asked, t) && ApprovedBefore(b, t)
    ensures
      var s, turn := k.Base().value, NextOf(k, w, b, shown, t);
      var now := asked + turn.asked;
      && Balanced(s, turn.book, now, if turn.reply.Play? then t + 1 else t)
      && (turn.reply.Play? ==> Kept(s, turn.book, now, t + 1) && PlaysFor(k, s, now, t, turn.reply.action))
    decreases k
  {
    match k
    case Default(s) =>
      NextKeeps(s, w, b, shown, t, asked);
      hide Next;
      var turn := NextOf(k, w, b, shown, t);
      if turn.reply.Play? {
        var action := turn.reply.action;
        assert action.(data := action.data) == action;
      }
    case Smoothed(key, mix, inner) =>
      hide Next, ReplansOf, InferencesOf;
      BaseKeeps(inner, w, b, shown, t, asked);
      var was, now := NextOf(inner, w, b, shown, t), NextOf(k, w, b, shown, t);
      if was.reply.Play? {
        var raw :| PlaysIndex(k.Base().value, asked + was.asked, t, was.reply.action.(data := raw));
        assert now.reply.action.(data := raw) == was.reply.action.(data := raw);
      }
  }
}
