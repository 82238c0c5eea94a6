/**
 One footer window of the operator session: the pump that feeds the line editor from two threads,
 the queue between it and the console, and the timed rule that turns a lone ESC into an end request.

 Pump and poll run under one lock, so a window is a sequence of events: background ticks and rollout
 polls. Every event says what its reads of standard input return and what the clock says; a statement
 about all event sequences covers every chunking of the input and every interleaving of the threads.
 */
module Session {
  import opened Basics
  import opened Terminal
  import Console

  /** How long a lone ESC waits for the byte that would make it part of a sequence, in seconds. */
  const ESC_GRACE: real := 0.15

  type Lines = seq<string>

  // ---------------------------------------------------------------- the window as a state machine

  datatype World = World(editor: Editor, queue: Lines, pumpEof: bool, stamp: Option<real>, consoleEof: bool)

  /** The reads an event finds ready, up to and including an empty one, and its clock. */
  datatype Event = Tick(got: seq<seq<byte>>, now: real) | Poll(got: seq<seq<byte>>, now: real)

  /** The bytes of the reads: those before the first empty read, which is the end of the input. */
  function Taken(got: seq<seq<byte>>): seq<byte> {
    if got == [] || got[0] == [] then [] else got[0] + Taken(got[1..])
  }

  predicate HitsEnd(got: seq<seq<byte>>) {
    [] in got
  }

  /** A quiet pump finds the grace period of a pending ESC over. */
  predicate GraceIsOver(w: World, got: seq<seq<byte>>, now: real) {
    && Taken(got) == [] && !w.pumpEof && !HitsEnd(got)
    && w.stamp.Some? && now - w.stamp.value >= ESC_GRACE
  }

  function Pumped(decode: Decoder, w: World, got: seq<seq<byte>>, now: real): World {
    var bytes := Taken(got);
    var eof := w.pumpEof || HitsEnd(got);
    if bytes != [] then
      var (e, lines) := Fold(decode, w.editor, bytes);
      w.(editor := e, queue := w.queue + lines, pumpEof := eof, stamp := if e.pending then Some(now) else None)
    else if GraceIsOver(w, got, now) then
      w.(editor := w.editor.(pending := false), queue := w.queue + [END_SENTINEL], stamp := None)
    else
      w.(pumpEof := eof)
  }

  /** What one event lets reach the editor. */
  function ItemsOf(w: World, ev: Event): seq<Item> {
    if GraceIsOver(w, ev.got, ev.now) then [Grace] else Typed(Taken(ev.got))
  }

  /** What the console's reads return: the queued lines at once, then the end of the input. */
  function Offered(w: World): seq<string> {
    (if w.queue != [] then [Console.Join(w.queue)] else []) + (if w.pumpEof then [""] else [])
  }

  /** The world after the console drained what it is offered. */
  function Drained(w: World): World {
    if w.consoleEof then w else w.(queue := [], consoleEof := w.pumpEof)
  }

  /** The lines that drain hands over. */
  function Handed(w: World): Lines {
    if w.consoleEof then [] else w.queue
  }

  function Do(decode: Decoder, w: World, ev: Event): World {
    var pumped := Pumped(decode, w, ev.got, ev.now);
    if ev.Poll? then Drained(pumped) else pumped
  }

  function Parsed(decode: Decoder, w: World, ev: Event): Lines {
    if ev.Poll? then Handed(Pumped(decode, w, ev.got, ev.now)) else []
  }

  // ---------------------------------------------------------------- runs

  /** Everything a run did: what reached the editor, what was read, the lines handed to the console. */
  datatype Run = Run(world: World, items: seq<Item>, read: seq<byte>, lines: Lines, polls: seq<Console.ConsolePoll>)

  function ReportOf(lines: Lines): Console.ConsolePoll {
    Console.ConsolePoll(Console.Messages(lines), Console.FirstEnd(lines))
  }

  function Runs(decode: Decoder, w: World, events: seq<Event>): Run {
    if events == [] then Run(w, [], [], [], [])
    else
      var front, ev := Runs(decode, w, events[..|events| - 1]), events[|events| - 1];
      var handed := Parsed(decode, front.world, ev);
      Run(Do(decode, front.world, ev),
          front.items + ItemsOf(front.world, ev),
          front.read + Taken(ev.got),
          front.lines + handed,
          front.polls + (if ev.Poll? then [ReportOf(handed)] else []))
  }

  /** The window's accounting: `items` is all that reached the editor, `handed` all the console took. */
  ghost predicate Accounted(decode: Decoder, w: World, items: seq<Item>, handed: Lines) {
    && Play(decode, items) == (w.editor, handed + w.queue)
    && Graceful(decode, items)
    && (w.stamp.Some? <==> w.editor.pending)
  }

  lemma GracefulTyped(decode: Decoder, items: seq<Item>, bs: seq<byte>)
    requires Graceful(decode, items)
    ensures Graceful(decode, items + Typed(bs))
  {
    var all := items + Typed(bs);
    forall i | 0 <= i < |all| && all[i].Grace?
      ensures Play(decode, all[..i]).0.pending
    {
      assert i < |items| && all[..i] == items[..i];
    }
  }

  lemma GracefulGrace(decode: Decoder, items: seq<Item>)
    requires Graceful(decode, items) && Play(decode, items).0.pending
    ensures Graceful(decode, items + [Grace])
  {
    var all := items + [Grace];
    forall i | 0 <= i < |all| && all[i].Grace?
      ensures Play(decode, all[..i]).0.pending
    {
      assert if i < |items| then all[..i] == items[..i] else all[..i] == items;
    }
  }

  lemma PumpKeepsAccount(decode: Decoder, w: World, items: seq<Item>, handed: Lines, ev: Event)
    requires Accounted(decode, w, items, handed)
    ensures Accounted(decode, Pumped(decode, w, ev.got, ev.now), items + ItemsOf(w, ev), handed)
    ensures BytesOf(items + ItemsOf(w, ev)) == BytesOf(items) + Taken(ev.got)
  {
    var bytes := Taken(ev.got);
    if GraceIsOver(w, ev.got, ev.now) {
      PlayOne(decode, items, Grace);
      GracefulGrace(decode, items);
      ConcatAssociates(handed, w.queue, [END_SENTINEL]);
      assert BytesOf(items) + [] == BytesOf(items);
    } else {
      PlayTyped(decode, items, bytes);
      GracefulTyped(decode, items, bytes);
      hide Press;
      ConcatAssociates(handed, w.queue, Fold(decode, w.editor, bytes).1);
      if bytes == [] {
        assert items + Typed(bytes) == items;
      }
    }
  }

  /**
   The terminal linearises. Whatever the chunking of the bytes, and however ticks and polls
   interleave, the lines handed to the console and the lines still queued are, in order and each
   once, what the editor makes of the bytes read and the grace periods that ran out; and the
   polls report exactly the messages of the lines handed over, and their first end request.
   */
  lemma {:induction false} Linearises(decode: Decoder, w: World, events: seq<Event>, items: seq<Item>, handed: Lines)
    requires Accounted(decode, w, items, handed)
    ensures
      var run := Runs(decode, w, events);
      && Accounted(decode, run.world, items + run.items, handed + run.lines)
      && BytesOf(items + run.items) == BytesOf(items) + run.read
    ensures
      var run := Runs(decode, w, events);
      && MessagesOf(run.polls) == Console.Messages(run.lines)
      && EndOf(run.polls) == Console.FirstEnd(run.lines)
  {
    if events == [] {
      assert items + [] == items && handed + [] == handed && BytesOf(items) + [] == BytesOf(items);
    } else {
      var before, ev := events[..|events| - 1], events[|events| - 1];
      Linearises(decode, w, before, items, handed);
      var front := Runs(decode, w, before);
      PumpKeepsAccount(decode, front.world, items + front.items, handed + front.lines, ev);
      var pumped := Pumped(decode, front.world, ev.got, ev.now);
      var taken := Parsed(decode, front.world, ev);
      hide Pumped;
      hide Accounted;
      hide Play;
      ConcatAssociates(items, front.items, ItemsOf(front.world, ev));
      ConcatAssociates(handed, front.lines, taken);
      ConcatAssociates(BytesOf(items), front.read, Taken(ev.got));
      HandOver(decode, pumped, items + front.items + ItemsOf(front.world, ev), handed + front.lines, ev);
      Console.ParsedConcat(front.lines, taken);
      if ev.Poll? {
        var polls := front.polls + [ReportOf(taken)];
        assert polls[..|front.polls|] == front.polls;
      } else {
        assert front.lines + [] == front.lines && front.polls + [] == front.polls;
      }
    }
  }

  /** A poll moves lines from the queue to the console, and that is all. */
  lemma HandOver(decode: Decoder, w: World, items: seq<Item>, handed: Lines, ev: Event)
    requires Accounted(decode, w, items, handed)
    ensures Accounted(decode, if ev.Poll? then Drained(w) else w, items,
                      handed + (if ev.Poll? then Handed(w) else []))
  {
    assert handed + [] == handed && handed + w.queue + [] == handed + w.queue;
  }

  function MessagesOf(polls: seq<Console.ConsolePoll>): seq<string> {
    if polls == [] then [] else MessagesOf(polls[..|polls| - 1]) + polls[|polls| - 1].messages
  }

  function EndOf(polls: seq<Console.ConsolePoll>): Option<Console.EndRequest> {
    if polls == [] then None
    else Console.First(EndOf(polls[..|polls| - 1]), polls[|polls| - 1].end)
  }

  // ---------------------------------------------------------------- whole windows

  /** A window just entered: the editor is reset, the queue empty, no grace armed. */
  function Entered(consoleEof: bool, pumpEof: bool): World {
    World(IDLE, [], pumpEof, None, consoleEof)
  }

  lemma EnteredIsAccounted(decode: Decoder, consoleEof: bool, pumpEof: bool)
    ensures Accounted(decode, Entered(consoleEof, pumpEof), [], [])
  {
    var none: Lines := [];
    assert none + none == none;
  }

  /** A window: ticks before the trial begins, the drain that begins it, ticks and polls. */
  datatype Window = Window(before: Run, dropped: Lines, after: Run)

  function Opens(decode: Decoder, w: World, early: seq<Event>, events: seq<Event>): Window {
    var before := Runs(decode, w, early);
    Window(before, Handed(before.world), Runs(decode, Drained(before.world), events))
  }

  predicate OnlyTicks(events: seq<Event>) {
    forall ev :: ev in events ==> ev.Tick?
  }

  lemma {:induction false} TicksHandNothing(decode: Decoder, w: World, events: seq<Event>)
    requires OnlyTicks(events)
    ensures Runs(decode, w, events).lines == [] && Runs(decode, w, events).polls == []
    ensures Runs(decode, w, events).world.consoleEof == w.consoleEof
  {
    if events != [] {
      TicksHandNothing(decode, w, events[..|events| - 1]);
      assert events[|events| - 1] in events;
    }
  }

  /**
   Over a whole window nothing is lost, repeated or reordered: the lines dropped because they were
   complete before the trial began, the lines parsed and the lines still queued are those of the
   window's history; every end request, counting a pending ESC, is an ESC byte of its own.
   */
  lemma WindowLosesNothing(decode: Decoder, consoleEof: bool, pumpEof: bool,
                           early: seq<Event>, events: seq<Event>)
    requires Faithful(decode) && OnlyTicks(early)
    ensures
      var window := Opens(decode, Entered(consoleEof, pumpEof), early, events);
      var items := window.before.items + window.after.items;
      var last := window.after.world;
      && Play(decode, items) == (last.editor, window.dropped + window.after.lines + last.queue)
      && BytesOf(items) == window.before.read + window.after.read
      && Graceful(decode, items)
      && window.dropped == (if consoleEof then [] else Play(decode, window.before.items).1)
      && MessagesOf(window.after.polls) == Console.Messages(window.after.lines)
      && EndOf(window.after.polls) == Console.FirstEnd(window.after.lines)
      && Ends(window.dropped + window.after.lines + last.queue) + Owed(last.editor)
         <= Escapes(window.before.read + window.after.read)
  {
    hide Runs, Play, BytesOf, Graceful, MessagesOf, EndOf, Drained, Handed, Faithful;
    hide Console.Messages, Console.FirstEnd, Ends, Escapes, Owed;
    var w := Entered(consoleEof, pumpEof);
    var before := Runs(decode, w, early);
    WindowOpens(decode, consoleEof, pumpEof, early);
    var dropped := Handed(before.world);
    Linearises(decode, Drained(before.world), events, before.items, dropped);
    var after := Runs(decode, Drained(before.world), events);
    EndsWithin(decode, before.items + after.items);
  }

  /** Up to the drain that begins the trial: */
  lemma WindowOpens(decode: Decoder, consoleEof: bool, pumpEof: bool, early: seq<Event>)
    requires OnlyTicks(early)
    ensures
      var before := Runs(decode, Entered(consoleEof, pumpEof), early);
      && Accounted(decode, Drained(before.world), before.items, Handed(before.world))
      && BytesOf(before.items) == before.read
      && Handed(before.world) == (if consoleEof then [] else Play(decode, before.items).1)
  {
    var w := Entered(consoleEof, pumpEof);
    EnteredIsAccounted(decode, consoleEof, pumpEof);
    Linearises(decode, w, early, [], []);
    TicksHandNothing(decode, w, early);
    var before := Runs(decode, w, early);
    assert BytesOf([]) == [];
    hide Runs, Play, BytesOf;
    ConcatEmpty(before.items);
    ConcatEmpty(before.lines);
    ConcatEmpty(before.read);
    ConcatEmpty(before.world.queue);
    HandOver(decode, before.world, before.items, [], Poll([], 0.0));
    ConcatEmpty(Handed(before.world));
  }

  /** Two runs with the same history hand over and queue the same lines, however they were cut. */
  lemma ChunkingIsInvisible(decode: Decoder, pumpEof: bool, a: seq<Event>, b: seq<Event>)
    requires
      Runs(decode, Entered(false, pumpEof), a).items == Runs(decode, Entered(false, pumpEof), b).items
    ensures
      var x := Runs(decode, Entered(false, pumpEof), a);
      var y := Runs(decode, Entered(false, pumpEof), b);
      x.lines + x.world.queue == y.lines + y.world.queue && x.world.editor == y.world.editor
  {
    var w := Entered(false, pumpEof);
    EnteredIsAccounted(decode, false, pumpEof);
    Linearises(decode, w, a, [], []);
    Linearises(decode, w, b, [], []);
    var x, y := Runs(decode, w, a), Runs(decode, w, b);
    hide Runs, Play, BytesOf, Graceful;
    ConcatEmpty(x.items);
    ConcatEmpty(x.lines);
    ConcatEmpty(y.lines);
  }

  predicate NoGrace(items: seq<Item>) {
    forall item :: item in items ==> item.Byte?
  }

  /** Without a grace period running out, the lines are the editor's fold over the bytes read. */
  lemma PlainRunIsFold(decode: Decoder, pumpEof: bool, events: seq<Event>)
    requires NoGrace(Runs(decode, Entered(false, pumpEof), events).items)
    ensures
      var run := Runs(decode, Entered(false, pumpEof), events);
      Fold(decode, IDLE, run.read) == (run.world.editor, run.lines + run.world.queue)
  {
    var w := Entered(false, pumpEof);
    EnteredIsAccounted(decode, false, pumpEof);
    Linearises(decode, w, events, [], []);
    var run := Runs(decode, w, events);
    assert BytesOf([]) == [];
    hide Runs, Play, BytesOf, Fold, Graceful;
    ConcatEmpty(run.items);
    ConcatEmpty(run.lines);
    ConcatEmpty(run.read);
    PlainItems(run.items);
    NoGraceIsFold(decode, run.read);
  }

  lemma {:induction false} PlainItems(items: seq<Item>)
    requires NoGrace(items)
    ensures items == Typed(BytesOf(items))
  {
    if items != [] {
      var front, last := items[..|items| - 1], items[|items| - 1];
      assert forall item :: item in front ==> item in items;
      PlainItems(front);
      assert last in items;
      assert items == front + [last];
    }
  }

  /** A lone ESC does end the trial: at the first quiet poll once its grace is over. */
  lemma LoneEscapeEnds(decode: Decoder, w: World, now: real)
    requires w.stamp.Some? && now - w.stamp.value >= ESC_GRACE && !w.pumpEof && !w.consoleEof
    ensures EndOf(Runs(decode, w, [Poll([], now)]).polls).Some?
    ensures
      var handed := Runs(decode, w, [Poll([], now)]).lines;
      handed == w.queue + [END_SENTINEL] && Console.Messages(handed) == Console.Messages(w.queue)
  {
    var event := Poll([], now);
    var handed := w.queue + [END_SENTINEL];
    assert Parsed(decode, w, event) == handed;
    Console.ParsedConcat(w.queue, [END_SENTINEL]);
    SentinelEnds();
    assert Console.Messages(w.queue) + [] == Console.Messages(w.queue);
    hide Console.Messages;
    hide Console.FirstEnd;
    OneEvent(decode, w, event);
  }

  lemma OneEvent(decode: Decoder, w: World, ev: Event)
    requires ev.Poll?
    ensures
      var run := Runs(decode, w, [ev]);
      && run.lines == Parsed(decode, w, ev) && EndOf(run.polls) == Console.FirstEnd(run.lines)
  {
    hide Pumped;
    hide Console.Messages;
    hide Console.FirstEnd;
    assert [ev][..0] == [];
    var handed := Parsed(decode, w, ev);
    assert [] + handed == handed && [] + [ReportOf(handed)] == [ReportOf(handed)];
    assert [ReportOf(handed)][..0] == [];
  }

  lemma SentinelEnds()
    ensures
      Console.Messages([END_SENTINEL]) == [] && Console.FirstEnd([END_SENTINEL]).Some?
  {
    Console.ParsedOne(END_SENTINEL);
    assert (END_SENTINEL + "\n")[..1] == END_SENTINEL;
    assert Console.TrimNewlines(END_SENTINEL + "\n") == END_SENTINEL;
  }

  // ---------------------------------------------------------------- the session

  class OperatorSession {
    const editor: LineEditor
    const console: Console.OperatorConsole
    var lineQueue: Lines
    var pumpEof: bool
    var escStamp: Option<real>

    constructor (decode: Decoder)
      ensures Valid() && fresh(editor) && fresh(console)
      ensures editor.decode == decode && State() == Entered(false, false)
    {
      editor := new LineEditor(decode);
      console := new Console.OperatorConsole();
      lineQueue, pumpEof, escStamp := [], false, None;
    }

    /** Queued lines have no line feed inside, and the editor's line can be decoded so too. */
    ghost predicate Valid()
      reads this, editor, console
    {
      && Console.Clean(lineQueue) && '\n' !in console.buffer
      && WellFormed(editor.State())
    }

    function State(): World
      reads this, editor, console
    {
      World(editor.State(), lineQueue, pumpEof, escStamp, console.eof)
    }

    /** Drains the ready reads into the editor, then settles a pending ESC. */
    method PumpInput(got: seq<seq<byte>>, now: real)
      requires Valid() && Faithful(editor.decode)
      modifies this, editor
      ensures Valid() && State() == Pumped(editor.decode, old(State()), got, now)
      ensures console.buffer == old(console.buffer)
    {
      hide Fold, Printable;
      ghost var was := State();
      ghost var decode := editor.decode;
      var fed := false;
      var i := 0;
      ghost var bytes := [];
      GrownNothing(decode, was);
      while i < |got|
        invariant 0 <= i <= |got|
        invariant bytes + Taken(got[i..]) == Taken(got) && fed == (bytes != [])
        invariant HitsEnd(got) == HitsEnd(got[i..])
        invariant (editor.State(), lineQueue) == Grown(decode, was, bytes)
        invariant pumpEof == was.pumpEof && escStamp == was.stamp
        decreases |got| - i
      {
        var chunk := got[i];
        assert got[i..] == [chunk] + got[i + 1..];
        i := i + 1;
        if chunk == [] {
          assert chunk in got && bytes + [] == bytes;
          pumpEof := true;
          break;
        }
        fed := true;
        ConcatAssociates(bytes, chunk, Taken(got[i..]));
        GrownMore(decode, was, bytes, chunk);
        var lines := editor.Feed(chunk);
        lineQueue := lineQueue + lines;
        bytes := bytes + chunk;
      }
      assert bytes + [] == bytes;
      GrownKeeps(decode, was, bytes);
      if fed {
        escStamp := if editor.escapePending then Some(now) else None;
        return;
      }
      if pumpEof || escStamp.None? {
        return;
      }
      if now - escStamp.value < ESC_GRACE {
        return;
      }
      escStamp := None;
      var _ := editor.TakeBareEscape();
      lineQueue := lineQueue + [END_SENTINEL];
    }

    /** The background thread, once: pump under the lock. */
    method Tick(got: seq<seq<byte>>, now: real)
      requires Valid() && Faithful(editor.decode)
      modifies this, editor
      ensures Valid() && State() == Do(editor.decode, old(State()), Event.Tick(got, now))
    {
      PumpInput(got, now);
    }

    /** The rollout thread: pump, then let the console drain the queue. */
    method Poll(got: seq<seq<byte>>, now: real) returns (poll: Console.ConsolePoll)
      requires Valid() && Faithful(editor.decode) && (console.eof || console.buffer == "")
      modifies this, editor, console
      ensures Valid() && (console.eof || console.buffer == "")
      ensures State() == Do(editor.decode, old(State()), Event.Poll(got, now))
      ensures poll == ReportOf(Parsed(editor.decode, old(State()), Event.Poll(got, now)))
    {
      PumpInput(got, now);
      var offered := Offers();
      OfferedReads(lineQueue, pumpEof);
      var usage, taken;
      poll, usage, taken := console.Poll(offered);
      if taken > 0 {
        lineQueue := [];
      }
    }

    /** What the console's read seam would return. */
    function Offers(): seq<string>
      reads this
    {
      (if lineQueue != [] then [Console.Join(lineQueue)] else []) + (if pumpEof then [""] else [])
    }

    /** Enters the window: input typed before it is thrown away. */
    method EnterFooter(got: seq<seq<byte>>)
      requires Valid()
      modifies this, editor
      ensures Valid() && State() == Entered(console.eof, old(pumpEof) || HitsEnd(got))
      ensures console.buffer == old(console.buffer)
    {
      var i := 0;
      while i < |got|
        invariant 0 <= i <= |got| && !HitsEnd(got[..i]) && pumpEof == old(pumpEof)
        decreases |got| - i
      {
        i := i + 1;
        if got[i - 1] == [] {
          pumpEof := true;
          break;
        }
      }
      editor.Reset();
      lineQueue, escStamp := [], None;
    }

    /** Begins the trial: lines completed between entering the window and now are dropped. */
    method BeginTrial()
      requires Valid()
      modifies this, console
      ensures Valid() && State() == Drained(old(State()))
      ensures console.eof || console.buffer == ""
    {
      var offered := Offers();
      OfferedReads(lineQueue, pumpEof);
      var taken := console.BeginTrial(offered);
      if taken > 0 {
        lineQueue := [];
      }
    }

    /** Leaves the window: nothing of it survives but the console's end of input. */
    method EndTrial()
      requires Valid()
      modifies this, editor
      ensures Valid() && State() == Entered(console.eof, false)
    {
      editor.Reset();
      lineQueue, pumpEof, escStamp := [], false, None;
    }
  }

  /** Editor and queue after some bytes were fed. */
  function Grown(decode: Decoder, was: World, bytes: seq<byte>): (Editor, Lines) {
    var (e, lines) := Fold(decode, was.editor, bytes);
    (e, was.queue + lines)
  }

  lemma GrownNothing(decode: Decoder, was: World)
    ensures Grown(decode, was, []) == (was.editor, was.queue)
  {
    ConcatEmpty(was.queue);
  }

  lemma GrownMore(decode: Decoder, was: World, bytes: seq<byte>, chunk: seq<byte>)
    ensures
      var (mid, queue) := Grown(decode, was, bytes);
      var (last, lines) := Fold(decode, mid, chunk);
      Grown(decode, was, bytes + chunk) == (last, queue + lines)
  {
    FoldConcat(decode, was.editor, bytes, chunk);
    var (mid, lines) := Fold(decode, was.editor, bytes);
    ConcatAssociates(was.queue, lines, Fold(decode, mid, chunk).1);
  }

  lemma {:induction false} GrownKeeps(decode: Decoder, was: World, bytes: seq<byte>)
    requires Faithful(decode) && WellFormed(was.editor) && Console.Clean(was.queue)
    ensures
      var (e, queue) := Grown(decode, was, bytes);
      WellFormed(e) && Console.Clean(queue)
  {
    if bytes != [] {
      var front, last := bytes[..|bytes| - 1], bytes[|bytes| - 1];
      GrownKeeps(decode, was, front);
      var (e, queue) := Grown(decode, was, front);
      ReactEnds(decode, e, Byte(last));
      GrownMore(decode, was, front, [last]);
      FoldPush(decode, e, [], last);
      assert front + [last] == bytes && [] + [last] == [last];
    }
  }

  /** The console reads the queued lines back exactly, then sees the end of the input. */
  lemma OfferedReads(queue: Lines, pumpEof: bool)
    requires Console.Clean(queue)
    ensures
      var offered := (if queue != [] then [Console.Join(queue)] else []) + (if pumpEof then [""] else []);
      && Console.SplitLines("" + Console.TextOf(offered)) == (queue, "")
      && Console.AtEnd(offered) == pumpEof
      && (queue != [] ==> Console.Reads(offered) > 0)
  {
    var text := Console.Join(queue);
    Console.SplitIsUnique(queue, "");
    ConcatEmpty(text);
    if queue == [] {
      JoinNothing();
      OfferedText([""], "");
    } else {
      JoinSomething(queue);
      OfferedText([text], text);
      OfferedText([text, ""], text);
    }
  }

  lemma OfferedText(offered: seq<string>, text: string)
    requires (offered == [""] && text == "") || (text != "" && (offered == [text] || offered == [text, ""]))
    ensures Console.TextOf(offered) == text && Console.Reads(offered) > 0
    ensures Console.AtEnd(offered) == (offered[|offered| - 1] == "")
  {
    if text != "" {
      assert offered[1..] == if |offered| == 2 then [""] else [];
    }
  }

  lemma JoinSomething(queue: Lines)
    requires queue != []
    ensures Console.Join(queue) != ""
  {
  }

  lemma JoinNothing()
    ensures Console.Join([]) == ""
  {
  }
}
