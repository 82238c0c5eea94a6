/**
 The byte-level line editor of the operator's terminal, and what a history of bytes and settled
 lone ESC keys makes of it. Decoding a completed line from UTF-8 is a parameter: all that is used is
 that it introduces no line feed and no ESC.
 */
module Terminal {
  import opened Basics
  import Console

  type Decoder = seq<byte> -> string

  predicate Printable(bs: seq<byte>) {
    forall i :: 0 <= i < |bs| ==> bs[i] >= 0x20 && bs[i] != 0x7F
  }

  ghost predicate Faithful(decode: Decoder) {
    forall bs: seq<byte> :: Printable(bs) ==> '\n' !in decode(bs) && '\U{001B}' !in decode(bs)
  }

  const ESC: byte := 0x1B
  const END_SENTINEL := Console.END_SENTINEL

  // ---------------------------------------------------------------- the line editor

  datatype Editor = Editor(buffer: seq<byte>, pending: bool, discard: bool)

  const IDLE := Editor([], false, false)

  predicate IsEnter(b: byte) {
    b == 0x0A || b == 0x0D
  }

  predicate IsContinuation(b: byte) {
    0x80 <= b <= 0xBF
  }

  /** The last byte of an escape sequence. */
  predicate IsFinal(b: byte) {
    0x40 <= b <= 0x7E
  }

  /** Backspace: the continuation bytes at the end, and the byte before them. */
  function DeleteChar(buffer: seq<byte>): seq<byte> {
    if buffer == [] then []
    else if IsContinuation(buffer[|buffer| - 1]) then DeleteChar(buffer[..|buffer| - 1])
    else buffer[..|buffer| - 1]
  }

  /** One byte: the editor after it, and the line it completed, if any. */
  function Press(decode: Decoder, e: Editor, b: byte): (Editor, seq<string>) {
    if e.discard then (if IsFinal(b) then e.(discard := false) else e, [])
    else if e.pending then
      if b == ESC then (e, [END_SENTINEL])
      else if b == 0x5B || b == 0x4F then (e.(pending := false, discard := true), [])
      else if IsEnter(b) then (e.(pending := false), [END_SENTINEL])
      else (e.(pending := false), [])
    else if b == ESC then (e.(pending := true), [])
    else if b == 0x7F || b == 0x08 then (e.(buffer := DeleteChar(e.buffer)), [])
    else if b == 0x15 then (e.(buffer := []), [])
    else if IsEnter(b) then (e.(buffer := []), [decode(e.buffer)])
    else if b >= 0x20 then (e.(buffer := e.buffer + [b]), [])
    else (e, [])
  }

  /** The editor's fold over a stretch of bytes. */
  function Fold(decode: Decoder, e: Editor, bs: seq<byte>): (Editor, seq<string>) {
    if bs == [] then (e, [])
    else
      var (front, lines) := Fold(decode, e, bs[..|bs| - 1]);
      var (last, more) := Press(decode, front, bs[|bs| - 1]);
      (last, lines + more)
  }

  lemma {:induction false} FoldConcat(decode: Decoder, e: Editor, a: seq<byte>, b: seq<byte>)
    ensures
      var (mid, lines) := Fold(decode, e, a);
      var (last, more) := Fold(decode, mid, b);
      Fold(decode, e, a + b) == (last, lines + more)
  {
    var (mid, lines) := Fold(decode, e, a);
    if b == [] {
      assert a + b == a && lines + [] == lines;
    } else {
      var front := b[..|b| - 1];
      assert (a + b)[..|a + b| - 1] == a + front;
      FoldConcat(decode, e, a, front);
      var (edited, between) := Fold(decode, mid, front);
      var (_, more) := Press(decode, edited, b[|b| - 1]);
      assert lines + (between + more) == lines + between + more;
    }
  }

  /** The fold grows by one byte. */
  lemma FoldPush(decode: Decoder, e: Editor, bs: seq<byte>, b: byte)
    ensures
      var (mid, lines) := Fold(decode, e, bs);
      var (last, more) := Press(decode, mid, b);
      Fold(decode, e, bs + [b]) == (last, lines + more) && (more == [] ==> lines + more == lines)
  {
    assert (bs + [b])[..|bs|] == bs;
  }

  class LineEditor {
    const decode: Decoder
    var buffer: seq<byte>
    var escapePending: bool
    var csiDiscard: bool

    constructor (decode: Decoder)
      ensures this.decode == decode && State() == IDLE
    {
      this.decode := decode;
      buffer, escapePending, csiDiscard := [], false, false;
    }

    function State(): Editor
      reads this
    {
      Editor(buffer, escapePending, csiDiscard)
    }

    method Reset()
      modifies this
      ensures State() == IDLE
    {
      buffer, escapePending, csiDiscard := [], false, false;
    }

    /** Applies one raw read; returns each line it completed, in order. */
    method Feed(chunk: seq<byte>) returns (completed: seq<string>)
      modifies this
      ensures (State(), completed) == Fold(decode, old(State()), chunk)
    {
      completed := [];
      for i := 0 to |chunk|
        invariant (State(), completed) == Fold(decode, old(State()), chunk[..i])
      {
        var b := chunk[i];
        assert chunk[..i + 1] == chunk[..i] + [b];
        FoldPush(decode, old(State()), chunk[..i], b);
        if csiDiscard {
          if IsFinal(b) {
            csiDiscard := false;
          }
          continue;
        }
        if escapePending {
          if b == ESC {
            completed := completed + [END_SENTINEL];
            continue;
          }
          escapePending := false;
          if b == 0x5B || b == 0x4F {
            csiDiscard := true;
          } else if IsEnter(b) {
            completed := completed + [END_SENTINEL];
          }
          continue;
        }
        if b == ESC {
          escapePending := true;
        } else if b == 0x7F || b == 0x08 {
          DeleteLast();
        } else if b == 0x15 {
          buffer := [];
        } else if IsEnter(b) {
          completed := completed + [decode(buffer)];
          buffer := [];
        } else if b >= 0x20 {
          buffer := buffer + [b];
        }
      }
      assert chunk[..|chunk|] == chunk;
    }

    method DeleteLast()
      modifies this`buffer
      ensures buffer == DeleteChar(old(buffer))
    {
      while buffer != [] && IsContinuation(buffer[|buffer| - 1])
        invariant DeleteChar(buffer) == DeleteChar(old(buffer))
        decreases |buffer|
      {
        buffer := buffer[..|buffer| - 1];
      }
      if buffer != [] {
        buffer := buffer[..|buffer| - 1];
      }
    }

    method TakeBareEscape() returns (was: bool)
      modifies this`escapePending
      ensures was == old(escapePending) && !escapePending
    {
      was, escapePending := escapePending, false;
    }
  }

  // ---------------------------------------------------------------- laws of the editor

  /** A complete CSI or SS3 sequence, or ESC and one other byte. */
  predicate IsEscapeSequence(bs: seq<byte>) {
    && |bs| >= 2 && bs[0] == ESC
    && if bs[1] == 0x5B || bs[1] == 0x4F then
         |bs| >= 3 && IsFinal(bs[|bs| - 1]) && forall i :: 2 <= i < |bs| - 1 ==> !IsFinal(bs[i])
       else |bs| == 2 && bs[1] != ESC && !IsEnter(bs[1])
  }

  lemma {:induction false} Discarding(decode: Decoder, e: Editor, bs: seq<byte>)
    requires e.discard && forall i :: 0 <= i < |bs| ==> !IsFinal(bs[i])
    ensures Fold(decode, e, bs) == (e, [])
  {
    if bs != [] {
      Discarding(decode, e, bs[..|bs| - 1]);
      assert !IsFinal(bs[|bs| - 1]);
      FoldPush(decode, e, bs[..|bs| - 1], bs[|bs| - 1]);
      assert bs == bs[..|bs| - 1] + [bs[|bs| - 1]];
    }
  }

  /** Complete escape sequences leave no trace, wherever they are typed outside another one. */
  lemma SequencesAreErased(decode: Decoder, e: Editor, before: seq<byte>, s: seq<byte>, after: seq<byte>)
    requires IsEscapeSequence(s)
    requires !Fold(decode, e, before).0.pending && !Fold(decode, e, before).0.discard
    ensures Fold(decode, e, before + s + after) == Fold(decode, e, before + after)
  {
    var mid := Fold(decode, e, before).0;
    FoldPush(decode, mid, [], ESC);
    assert [] + [ESC] == [ESC];
    if |s| == 2 {
      assert s == [ESC] + [s[1]];
      FoldPush(decode, mid, [ESC], s[1]);
    } else {
      DiscardedWhole(decode, mid, s);
    }
    assert Fold(decode, mid, s) == (mid, []);
    FoldConcat(decode, e, before, s);
    FoldConcat(decode, e, before + s, after);
    FoldConcat(decode, e, before, after);
    assert Fold(decode, e, before).1 + [] == Fold(decode, e, before).1;
  }

  lemma DiscardedWhole(decode: Decoder, mid: Editor, s: seq<byte>)
    requires IsEscapeSequence(s) && |s| > 2 && !mid.pending && !mid.discard
    ensures Fold(decode, mid, s) == (mid, [])
  {
    var inside := mid.(discard := true);
    var body, last := s[2..|s| - 1], s[|s| - 1];
    FoldPush(decode, mid, [], ESC);
    assert [] + [ESC] == [ESC];
    FoldPush(decode, mid, [ESC], s[1]);
    Discarding(decode, inside, body);
    FoldConcat(decode, mid, [ESC] + [s[1]], body);
    FoldPush(decode, mid, [ESC] + [s[1]] + body, last);
    assert s == [ESC] + [s[1]] + body + [last];
  }

  /** Backspace undoes one typed character, however many bytes it took. */
  lemma {:induction false} BackspaceUndoes(buffer: seq<byte>, lead: byte, rest: seq<byte>)
    requires !IsContinuation(lead) && forall i :: 0 <= i < |rest| ==> IsContinuation(rest[i])
    ensures DeleteChar(buffer + [lead] + rest) == buffer
  {
    var all := buffer + [lead] + rest;
    if rest == [] {
      assert all == buffer + [lead];
    } else {
      assert all[..|all| - 1] == buffer + [lead] + rest[..|rest| - 1];
      BackspaceUndoes(buffer, lead, rest[..|rest| - 1]);
    }
  }

  lemma {:induction false} DeleteKeepsPrintable(buffer: seq<byte>)
    requires Printable(buffer)
    ensures Printable(DeleteChar(buffer))
  {
    if buffer != [] && IsContinuation(buffer[|buffer| - 1]) {
      DeleteKeepsPrintable(buffer[..|buffer| - 1]);
    }
  }

  // ---------------------------------------------------------------- the window's history

  /** What reached the editor: a byte, or the grace period turning a pending ESC into an end. */
  datatype Item = Byte(b: byte) | Grace

  function React(decode: Decoder, e: Editor, item: Item): (Editor, seq<string>) {
    match item
    case Byte(b) => Press(decode, e, b)
    case Grace => (e.(pending := false), [END_SENTINEL])
  }

  /** The editor and the lines after a history of items. */
  function Play(decode: Decoder, items: seq<Item>): (Editor, seq<string>) {
    if items == [] then (IDLE, [])
    else
      var (front, lines) := Play(decode, items[..|items| - 1]);
      var (last, more) := React(decode, front, items[|items| - 1]);
      (last, lines + more)
  }

  function Typed(bs: seq<byte>): seq<Item> {
    seq(|bs|, i requires 0 <= i < |bs| => Byte(bs[i]))
  }

  /** The bytes of a history, with the grace periods forgotten. */
  function BytesOf(items: seq<Item>): seq<byte> {
    if items == [] then []
    else BytesOf(items[..|items| - 1]) + (if items[|items| - 1].Byte? then [items[|items| - 1].b] else [])
  }

  lemma PlayOne(decode: Decoder, items: seq<Item>, item: Item)
    ensures
      var (mid, lines) := Play(decode, items);
      var (last, more) := React(decode, mid, item);
      Play(decode, items + [item]) == (last, lines + more)
    ensures BytesOf(items + [item]) == BytesOf(items) + (if item.Byte? then [item.b] else [])
  {
    assert (items + [item])[..|items|] == items;
  }

  lemma {:induction false} PlayTyped(decode: Decoder, items: seq<Item>, bs: seq<byte>)
    ensures
      var (mid, lines) := Play(decode, items);
      var (last, more) := Fold(decode, mid, bs);
      Play(decode, items + Typed(bs)) == (last, lines + more)
    ensures BytesOf(items + Typed(bs)) == BytesOf(items) + bs
  {
    if bs == [] {
      assert items + Typed(bs) == items && BytesOf(items) + [] == BytesOf(items);
      assert Play(decode, items).1 + [] == Play(decode, items).1;
    } else {
      var front, last := bs[..|bs| - 1], bs[|bs| - 1];
      assert Typed(bs) == Typed(front) + [Byte(last)];
      assert items + Typed(bs) == items + Typed(front) + [Byte(last)];
      PlayTyped(decode, items, front);
      assert front + [last] == bs;
      hide Press;
      hide Typed;
      hide BytesOf;
      hide Play;
      PlayOne(decode, items + Typed(front), Byte(last));
      var (mid, lines) := Play(decode, items);
      FoldPush(decode, mid, front, last);
      var (edited, between) := Fold(decode, mid, front);
      var (_, more) := Press(decode, edited, last);
      hide Fold;
      ConcatAssociates(lines, between, more);
      ConcatAssociates(BytesOf(items), front, [last]);
    }
  }

  /** With no grace period in it, a history is the fold over its bytes. */
  lemma NoGraceIsFold(decode: Decoder, bs: seq<byte>)
    ensures Play(decode, Typed(bs)) == Fold(decode, IDLE, bs)
  {
    PlayTyped(decode, [], bs);
    assert [] + Typed(bs) == Typed(bs);
    assert [] + Fold(decode, IDLE, bs).1 == Fold(decode, IDLE, bs).1;
  }

  /** Grace periods only end a pending ESC. */
  ghost predicate Graceful(decode: Decoder, items: seq<Item>) {
    forall i :: 0 <= i < |items| && items[i].Grace? ==> Play(decode, items[..i]).0.pending
  }

  predicate IsEnd(line: string) {
    line == END_SENTINEL
  }

  function Ends(lines: seq<string>): nat {
    Count(lines, IsEnd)
  }

  predicate IsEscape(b: byte) {
    b == ESC
  }

  function Escapes(bs: seq<byte>): nat {
    Count(bs, IsEscape)
  }

  predicate OneLine(line: string) {
    '\n' !in line
  }

  ghost predicate WellFormed(e: Editor) {
    Printable(e.buffer) && !(e.pending && e.discard)
  }

  function Owed(e: Editor): nat {
    if e.pending then 1 else 0
  }

  lemma ReactEnds(decode: Decoder, e: Editor, item: Item)
    requires Faithful(decode) && WellFormed(e) && (item.Grace? ==> e.pending)
    ensures
      var (after, more) := React(decode, e, item);
      && WellFormed(after) && |more| <= 1 && (|more| == 1 ==> OneLine(more[0]))
      && Ends(more) + Owed(after) <= Owed(e) + (if item == Byte(ESC) then 1 else 0)
  {
    DeleteKeepsPrintable(e.buffer);
    var more := React(decode, e, item).1;
    assert Ends([]) == 0;
    if more != [] {
      assert more == [more[0]];
      CountOne(more[0], IsEnd);
    }
  }

  /** The items of a graceful history are graceful at each prefix, and the last one is too. */
  lemma GracefulFront(decode: Decoder, front: seq<Item>, item: Item)
    requires Graceful(decode, front + [item])
    ensures Graceful(decode, front) && (item.Grace? ==> Play(decode, front).0.pending)
  {
    var items := front + [item];
    assert forall i :: 0 <= i <= |front| ==> front[..i] == items[..i];
    assert items[|front|] == item && front[..|front|] == front;
  }

  /** No end request is invented: each one, and a pending one, is an ESC byte of its own. */
  lemma {:induction false} EndsWithin(decode: Decoder, items: seq<Item>)
    requires Faithful(decode) && Graceful(decode, items)
    ensures
      var (e, lines) := Play(decode, items);
      && WellFormed(e) && Ends(lines) + Owed(e) <= Escapes(BytesOf(items))
      && forall line :: line in lines ==> OneLine(line)
  {
    if items != [] {
      var front, item := items[..|items| - 1], items[|items| - 1];
      assert items == front + [item];
      GracefulFront(decode, front, item);
      EndsWithin(decode, front);
      PlayOne(decode, front, item);
      var (e, lines) := Play(decode, front);
      ReactEnds(decode, e, item);
      var (_, more) := React(decode, e, item);
      hide *;
      EndsGrow(lines, more, BytesOf(front), item);
    }
  }

  lemma EndsGrow(lines: seq<string>, more: seq<string>, bs: seq<byte>, item: Item)
    ensures Ends(lines + more) == Ends(lines) + Ends(more)
    ensures
      Escapes(bs + (if item.Byte? then [item.b] else []))
      == Escapes(bs) + (if item == Byte(ESC) then 1 else 0)
  {
    CountConcat(lines, more, IsEnd);
    if item.Byte? {
      CountPush(bs, item.b, IsEscape);
    } else {
      assert bs + [] == bs;
    }
  }
}
