/**
 The operator console: lines are cut from the text the reads return, each is parsed into a message
 or an end request, and one poll reports all of its messages and its first end request.
 */
module Console {
  import opened Basics
  import Text

  datatype EndRequest = EndRequest(verdict: Option<string>, note: Option<string>)

  datatype ConsolePoll = ConsolePoll(messages: seq<string>, end: Option<EndRequest>)

  datatype Parsed = Parsed(message: Option<string>, end: Option<EndRequest>, usage: bool)

  const END_SENTINEL := "\U{001B}"

  // ---------------------------------------------------------------- one line

  function TrimNewlines(s: string): string {
    if s != [] && s[|s| - 1] == '\n' then TrimNewlines(s[..|s| - 1]) else s
  }

  /** The text before the first blank, and the text after it. */
  function Partition(s: string): (string, string)
    decreases |s|
  {
    if s == [] then ([], [])
    else if s[0] == ' ' then ([], s[1..])
    else
      var (token, rest) := Partition(s[1..]);
      ([s[0]] + token, rest)
  }

  function Filled(note: string): Option<string> {
    if note == [] then None else Some(note)
  }

  function VerdictOf(command: string): Option<string> {
    if command == "/y" then Some("y")
    else if command == "/n" then Some("n")
    else if command == "/p" then Some("partial")
    else None
  }

  function Parse(line: string): Parsed {
    var text := TrimNewlines(line);
    var stripped := Text.Strip(text);
    if stripped == [] then Parsed(None, None, true)
    else if stripped == END_SENTINEL then Parsed(None, Some(EndRequest(None, None)), false)
    else
      var (token, rawNote) := Partition(stripped);
      var command := Text.Lower(token);
      var note := Filled(Text.Strip(rawNote));
      if command == "/stop" then Parsed(note, Some(EndRequest(None, None)), false)
      else if VerdictOf(command).Some? then Parsed(None, Some(EndRequest(VerdictOf(command), note)), false)
      else if stripped[0] == '/' then Parsed(None, None, true)
      else Parsed(Some(text), None, false)
  }

  // ---------------------------------------------------------------- many lines

  function Messages(lines: seq<string>): seq<string> {
    if lines == [] then []
    else
      var parsed := Parse(lines[|lines| - 1] + "\n");
      Messages(lines[..|lines| - 1]) + (if parsed.message.Some? then [parsed.message.value] else [])
  }

  function FirstEnd(lines: seq<string>): Option<EndRequest> {
    if lines == [] then None
    else
      var earlier := FirstEnd(lines[..|lines| - 1]);
      if earlier.Some? then earlier else Parse(lines[|lines| - 1] + "\n").end
  }

  predicate WantsUsage(line: string) {
    Parse(line + "\n").usage
  }

  function First<T>(a: Option<T>, b: Option<T>): Option<T> {
    if a.Some? then a else b
  }

  lemma {:induction false} ParsedConcat(a: seq<string>, b: seq<string>)
    ensures Messages(a + b) == Messages(a) + Messages(b)
    ensures FirstEnd(a + b) == First(FirstEnd(a), FirstEnd(b))
    ensures Has(a + b, WantsUsage) == (Has(a, WantsUsage) || Has(b, WantsUsage))
  {
    CountConcat(a, b, WantsUsage);
    if b == [] {
      assert a + b == a;
    } else {
      hide Parse;
      hide Count;
      var front := b[..|b| - 1];
      assert (a + b)[..|a + b| - 1] == a + front;
      ParsedConcat(a, front);
      var parsed := Parse(b[|b| - 1] + "\n");
      ConcatAssociates(Messages(a), Messages(front), if parsed.message.Some? then [parsed.message.value] else []);
    }
  }

  // ---------------------------------------------------------------- cutting text into lines

  function IndexOf(s: string, c: char): (i: nat)
    requires c in s
    ensures i < |s| && s[i] == c && forall j :: 0 <= j < i ==> s[j] != c
  {
    if s[0] == c then 0 else 1 + IndexOf(s[1..], c)
  }

  /** The complete lines of a text and its unfinished rest. */
  function SplitLines(text: string): (seq<string>, string)
    decreases |text|
  {
    if '\n' !in text then ([], text)
    else
      var i := IndexOf(text, '\n');
      var (lines, rest) := SplitLines(text[i + 1..]);
      ([text[..i]] + lines, rest)
  }

  /** Lines, each closed by a line feed. */
  function Join(lines: seq<string>): string {
    if lines == [] then [] else Join(lines[..|lines| - 1]) + lines[|lines| - 1] + "\n"
  }

  ghost predicate Clean(lines: seq<string>) {
    forall line :: line in lines ==> '\n' !in line
  }

  lemma {:induction false} JoinConcat(a: seq<string>, b: seq<string>)
    ensures Join(a + b) == Join(a) + Join(b)
  {
    if b == [] {
      assert a + b == a;
    } else {
      assert (a + b)[..|a + b| - 1] == a + b[..|b| - 1];
      JoinConcat(a, b[..|b| - 1]);
    }
  }

  /** A text is its complete lines followed by its rest, */
  lemma {:induction false} SplitJoins(text: string)
    ensures
      var (lines, rest) := SplitLines(text);
      Join(lines) + rest == text && Clean(lines) && '\n' !in rest
    decreases |text|
  {
    if '\n' in text {
      var i := IndexOf(text, '\n');
      var (lines, rest) := SplitLines(text[i + 1..]);
      SplitJoins(text[i + 1..]);
      FirstLine(text, i);
      JoinFirst(text[..i], lines, rest);
      CleanFirst(text[..i], lines);
      hide Join, Clean;
    }
  }

  lemma CleanFirst(line: string, lines: seq<string>)
    requires Clean(lines) && '\n' !in line
    ensures Clean([line] + lines)
  {
  }

  lemma FirstLine(text: string, i: nat)
    requires i < |text| && text[i] == '\n' && forall j :: 0 <= j < i ==> text[j] != '\n'
    ensures '\n' !in text[..i] && text == text[..i] + "\n" + text[i + 1..]
  {
  }

  lemma JoinFirst(line: string, lines: seq<string>, rest: string)
    ensures Join([line] + lines) + rest == line + "\n" + (Join(lines) + rest)
  {
    JoinConcat([line], lines);
    JoinOne(line);
    hide Join;
    ConcatAssociates(line + "\n", Join(lines), rest);
  }

  lemma JoinOne(line: string)
    ensures Join([line]) == line + "\n"
  {
    assert [line][..0] == [];
  }

  /** in only one way: any clean decomposition is the one SplitLines finds. */
  lemma {:induction false} SplitIsUnique(lines: seq<string>, rest: string)
    requires Clean(lines) && '\n' !in rest
    ensures SplitLines(Join(lines) + rest) == (lines, rest)
  {
    var text := Join(lines) + rest;
    if lines != [] {
      var first, others := lines[0], lines[1..];
      assert lines == [first] + others;
      JoinConcat([first], others);
      JoinOne(first);
      assert text == first + "\n" + (Join(others) + rest);
      assert text[|first|] == '\n';
      var i := IndexOf(text, '\n');
      assert first in lines;
      assert text[..|first|] == first;
      assert forall j :: 0 <= j < |first| ==> text[j] == first[j];
      assert i == |first|;
      assert text[i + 1..] == Join(others) + rest;
      SplitIsUnique(others, rest);
    } else {
      assert text == rest;
    }
  }

  /** Cutting is incremental: more text extends the lines and only the rest is cut again. */
  lemma SplitContinues(a: string, b: string)
    ensures
      var (lines, rest) := SplitLines(a);
      var (more, last) := SplitLines(rest + b);
      SplitLines(a + b) == (lines + more, last)
  {
    SplitJoins(a);
    var (lines, rest) := SplitLines(a);
    SplitJoins(rest + b);
    var (more, last) := SplitLines(rest + b);
    JoinConcat(lines, more);
    hide Join;
    ConcatAssociates(Join(lines), rest, b);
    ConcatAssociates(Join(lines), Join(more), last);
    SplitIsUnique(lines + more, last);
  }

  // ---------------------------------------------------------------- the console

  /** How many reads a poll takes: up to the first empty one, which is the end of the input. */
  function Reads(chunks: seq<string>): (n: nat)
    ensures n <= |chunks|
  {
    if chunks == [] then 0 else if chunks[0] == "" then 1 else 1 + Reads(chunks[1..])
  }

  function AtEnd(chunks: seq<string>): bool {
    "" in chunks
  }

  /** The text those reads return. */
  function TextOf(chunks: seq<string>): string {
    if chunks == [] || chunks[0] == "" then "" else chunks[0] + TextOf(chunks[1..])
  }

  /** What has been reported of the lines seen so far. */
  ghost predicate Parsing(seen: seq<string>, messages: seq<string>, end: Option<EndRequest>, usage: bool) {
    messages == Messages(seen) && end == FirstEnd(seen) && usage == Has(seen, WantsUsage)
  }

  /** The first line of the buffer, reported. */
  lemma TakeLine(seen: seq<string>, line: string, buffer: string,
                 messages: seq<string>, end: Option<EndRequest>, usage: bool)
    requires Parsing(seen, messages, end, usage) && Clean(seen)
    requires '\n' !in line && |line| < |buffer| && buffer[..|line|] == line && buffer[|line|] == '\n'
    ensures
      var parsed := Parse(line + "\n");
      Parsing(seen + [line],
              if parsed.message.Some? then messages + [parsed.message.value] else messages,
              if parsed.end.Some? && end.None? then parsed.end else end,
              parsed.usage || usage)
    ensures Clean(seen + [line])
    ensures Join(seen + [line]) + buffer[|line| + 1..] == Join(seen) + buffer
  {
    hide Parse, Join, Messages, FirstEnd, Has;
    ParsedConcat(seen, [line]);
    ParsedOne(line);
    ConcatEmpty(messages);
    JoinNext(seen, line, buffer);
  }

  lemma JoinNext(seen: seq<string>, line: string, buffer: string)
    requires |line| < |buffer| && buffer[..|line|] == line && buffer[|line|] == '\n'
    ensures Join(seen + [line]) + buffer[|line| + 1..] == Join(seen) + buffer
  {
    var rest := buffer[|line| + 1..];
    JoinConcat(seen, [line]);
    JoinOne(line);
    hide Join;
    assert buffer == line + "\n" + rest;
    ConcatAssociates(Join(seen), line + "\n", rest);
  }

  lemma NothingSeen(buffer: string)
    ensures Parsing([], [], None, false) && Clean([]) && Join([]) + buffer == buffer
  {
  }

  class OperatorConsole {
    var buffer: string
    var eof: bool

    constructor ()
      ensures buffer == "" && !eof
    {
      buffer, eof := "", false;
    }

    /** Drains the reads; `chunks` are what they would return while the input is readable. */
    method Poll(chunks: seq<string>) returns (poll: ConsolePoll, usage: bool, taken: nat)
      requires '\n' !in buffer
      modifies this
      ensures '\n' !in buffer
      ensures
        old(eof)
        ==>
          && poll == ConsolePoll([], None) && !usage && taken == 0
          && eof && buffer == old(buffer)
      ensures
        !old(eof)
        ==>
          var (lines, rest) := SplitLines(old(buffer) + TextOf(chunks));
          && poll == ConsolePoll(Messages(lines), FirstEnd(lines)) && usage == Has(lines, WantsUsage)
          && taken == Reads(chunks) && eof == AtEnd(chunks) && buffer == (if eof then "" else rest)
    {
      hide Join, Messages, FirstEnd, Has, SplitLines, Clean;
      poll, usage, taken := ConsolePoll([], None), false, 0;
      if eof {
        return;
      }
      var messages, end := [], None;
      ghost var was := buffer;
      ghost var seen := [];
      NothingSeen(buffer);
      while taken < |chunks|
        invariant taken <= |chunks| && !eof
        invariant Clean(seen) && '\n' !in buffer
        invariant Join(seen) + buffer + TextOf(chunks[taken..]) == was + TextOf(chunks)
        invariant Parsing(seen, messages, end, usage)
        invariant Reads(chunks) == taken + Reads(chunks[taken..])
        invariant AtEnd(chunks) == AtEnd(chunks[taken..])
        decreases |chunks| - taken
      {
        var chunk := chunks[taken];
        assert chunks[taken..] == [chunk] + chunks[taken + 1..];
        taken := taken + 1;
        if chunk == "" {
          SplitIsUnique(seen, buffer);
          assert Join(seen) + buffer + "" == Join(seen) + buffer;
          eof, buffer := true, "";
          break;
        }
        assert Join(seen) + buffer + (chunk + TextOf(chunks[taken..]))
            == Join(seen) + (buffer + chunk) + TextOf(chunks[taken..]);
        buffer := buffer + chunk;
        messages, end, usage, seen := TakeLines(messages, end, usage, seen);
      }
      if !eof {
        assert chunks[taken..] == [];
        assert Join(seen) + buffer + "" == Join(seen) + buffer;
        SplitIsUnique(seen, buffer);
      }
      poll := ConsolePoll(messages, end);
    }

    /** Takes every complete line out of the buffer. */
    method TakeLines(messages: seq<string>, end: Option<EndRequest>, usage: bool, ghost seen: seq<string>)
      returns (messages': seq<string>, end': Option<EndRequest>, usage': bool, ghost seen': seq<string>)
      requires Parsing(seen, messages, end, usage) && Clean(seen)
      modifies this`buffer
      ensures Parsing(seen', messages', end', usage') && Clean(seen') && '\n' !in buffer
      ensures Join(seen') + buffer == Join(seen) + old(buffer)
    {
      messages', end', usage', seen' := messages, end, usage, seen;
      hide *;
      while '\n' in buffer
        invariant Parsing(seen', messages', end', usage') && Clean(seen')
        invariant Join(seen') + buffer == Join(seen) + old(buffer)
        decreases |buffer|
      {
        var i := IndexOf(buffer, '\n');
        var line := buffer[..i];
        TakeLine(seen', line, buffer, messages', end', usage');
        var parsed := Parse(line + "\n");
        buffer := buffer[i + 1..];
        if parsed.message.Some? {
          messages' := messages' + [parsed.message.value];
        }
        if parsed.end.Some? && end'.None? {
          end' := parsed.end;
        }
        if parsed.usage {
          usage' := true;
        }
        seen' := seen' + [line];
      }
    }

    /** Drops pending input, so that nothing typed before the trial reaches it. */
    method BeginTrial(chunks: seq<string>) returns (taken: nat)
      modifies this
      ensures taken == if old(eof) then 0 else Reads(chunks)
      ensures eof == (old(eof) || AtEnd(chunks))
      ensures buffer == if old(eof) then old(buffer) else ""
    {
      taken := 0;
      if eof {
        return;
      }
      buffer := "";
      while taken < |chunks|
        invariant taken <= |chunks|
        invariant Reads(chunks) == taken + Reads(chunks[taken..])
        invariant AtEnd(chunks) == AtEnd(chunks[taken..])
      {
        assert chunks[taken..] == [chunks[taken]] + chunks[taken + 1..];
        taken := taken + 1;
        if chunks[taken - 1] == "" {
          eof := true;
          return;
        }
      }
    }
  }

  lemma ParsedOne(line: string)
    ensures
      var parsed := Parse(line + "\n");
      && Messages([line]) == (if parsed.message.Some? then [parsed.message.value] else [])
      && FirstEnd([line]) == parsed.end && Has([line], WantsUsage) == parsed.usage
  {
    assert [line][..0] == [];
    CountOne(line, WantsUsage);
  }

  // ---------------------------------------------------------------- laws of one line

  /** A line is a message, a request, both (the note of a /stop), or a reason to show the usage. */
  lemma NothingIsSwallowed(line: string)
    requires '\n' !in line
    ensures
      var parsed := Parse(line + "\n");
      && (parsed.usage <==> parsed.message.None? && parsed.end.None?)
      && (parsed.message.Some? && parsed.end.None? ==> parsed.message == Some(line))
  {
    assert (line + "\n")[..|line|] == line;
    assert TrimNewlines(line) == line;
  }

  predicate Tight(note: string) {
    note != [] && !Text.IsSpace(note[0]) && !Text.IsSpace(note[|note| - 1])
  }

  /** A command and a note are read back from the line they make, in any letter case. */
  lemma CommandRoundTrip(token: string, note: string)
    requires Text.Lower(token) in {"/stop", "/y", "/n", "/p"} && Tight(note) && '\n' !in note
    ensures
      Parse(token + " " + note + "\n")
      == if Text.Lower(token) == "/stop" then Parsed(Some(note), Some(EndRequest(None, None)), false)
         else Parsed(None, Some(EndRequest(VerdictOf(Text.Lower(token)), Some(note))), false)
  {
    var text := token + " " + note;
    assert forall i :: 0 <= i < |token| ==> token[i] == Text.Lower(token)[i] || 'A' <= token[i] <= 'Z';
    PartitionAt(token, note);
    assert (text + "\n")[..|text|] == text;
    assert text[0] == token[0] && text[|text| - 1] == note[|note| - 1];
    assert TrimNewlines(text + "\n") == text;
    assert Text.Strip(text) == text && Text.Strip(note) == note;
    assert '\U{001B}' != text[0];
  }

  lemma {:induction false} PartitionAt(token: string, note: string)
    requires ' ' !in token
    ensures Partition(token + " " + note) == (token, note)
  {
    var text := token + " " + note;
    if token == [] {
      assert text == " " + note && text[1..] == note;
    } else {
      assert text[1..] == token[1..] + " " + note;
      PartitionAt(token[1..], note);
      assert token == [token[0]] + token[1..] && text[0] == token[0];
      assert token[0] in token;
    }
  }
}
