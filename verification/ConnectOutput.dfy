/** Line buffering of a worker's output streams, which arrive in arbitrary chunks. */
module ConnectOutput {

  type Timestamp = int

  datatype Stream = Stdout | Stderr

  /** A line as handed to the terminal. */
  datatype Line = Line(stream: Stream, timestamp: Timestamp, text: string)

  // ---------------------------------------------------------------- lines of a text

  /** The position of the first newline, the length if there is none. */
  function Newline(s: string): (i: nat)
    ensures i <= |s| && (forall k :: 0 <= k < i ==> s[k] != '\n') && (i < |s| ==> s[i] == '\n')
  {
    if s == "" || s[0] == '\n' then 0 else 1 + Newline(s[1..])
  }

  /** A carriage return right before the newline belongs to the line end. */
  function Strip(line: string): string {
    if line != "" && line[|line| - 1] == '\r' then line[..|line| - 1] else line
  }

  function StripAll(lines: seq<string>): (r: seq<string>)
    ensures |r| == |lines|
  {
    seq(|lines|, i requires 0 <= i < |lines| => Strip(lines[i]))
  }

  /** Rust's `str::lines`: line ends are removed, and the text after the last newline counts unless it is empty. */
  function Lines(s: string): seq<string>
    decreases |s|
  {
    var i := Newline(s);
    if s == "" then [] else if i == |s| then [s] else [Strip(s[..i])] + Lines(s[i + 1..])
  }

  /** The lines of a text that a newline ends, as they stand in the text, read character by character. */
  function Complete(s: string): seq<string> {
    if s == "" then []
    else if s[|s| - 1] == '\n' then Complete(s[..|s| - 1]) + [Tail(s[..|s| - 1])]
    else Complete(s[..|s| - 1])
  }

  /** The unfinished line at the end of a text. */
  function Tail(s: string): string {
    if s == "" || s[|s| - 1] == '\n' then "" else Tail(s[..|s| - 1]) + [s[|s| - 1]]
  }

  /** The complete lines of a text appended to an unfinished line. */
  function Joined(tail: string, lines: seq<string>): (r: seq<string>)
    ensures |r| == |lines|
  {
    if lines == [] then [] else [tail + lines[0]] + lines[1..]
  }

  lemma {:induction false} OnlyUnfinished(s: string)
    ensures '\n' !in s ==> Tail(s) == s
    ensures '\n' !in s <==> Complete(s) == []
  {
    if s != "" {
      OnlyUnfinished(s[..|s| - 1]);
      assert s == s[..|s| - 1] + [s[|s| - 1]];
    }
  }

  lemma JoinOneMore(tail: string, lines: seq<string>, last: string)
    ensures Joined(tail, lines + [last]) == Joined(tail, lines) + [if lines == [] then tail + last else last]
  {
  }

  lemma OneMoreChar(s: string, c: char)
    ensures Complete(s + [c]) == if c == '\n' then Complete(s) + [Tail(s)] else Complete(s)
    ensures Tail(s + [c]) == if c == '\n' then "" else Tail(s) + [c]
  {
    assert (s + [c])[..|s|] == s;
  }

  /** Appending a text completes the unfinished line with its first line. */
  lemma {:induction false} AppendText(s: string, m: string)
    ensures Complete(s + m) == Complete(s) + Joined(Tail(s), Complete(m))
    ensures Tail(s + m) == if Complete(m) == [] then Tail(s) + m else Tail(m)
  {
    if m == "" {
      assert s + m == s;
    } else {
      var m0, c := m[..|m| - 1], m[|m| - 1];
      assert m == m0 + [c] && s + m == (s + m0) + [c];
      AppendText(s, m0);
      OnlyUnfinished(m0);
      OneMoreChar(m0, c);
      OneMoreChar(s + m0, c);
      JoinChar(Complete(s), Complete(m0), Tail(s), m0, Tail(m0), c);
    }
  }

  lemma JoinChar(done: seq<string>, lines: seq<string>, tail: string, m: string, last: string, c: char)
    requires lines == [] ==> last == m
    ensures var unfinished := if lines == [] then tail + m else last;
            && (done + Joined(tail, lines)) + [unfinished] == done + Joined(tail, lines + [last])
            && unfinished + [c] == if lines == [] then tail + (m + [c]) else last + [c]
  {
    JoinOneMore(tail, lines, last);
    assert (tail + m) + [c] == tail + (m + [c]);
    assert (done + Joined(tail, lines)) + [if lines == [] then tail + m else last]
        == done + (Joined(tail, lines) + [if lines == [] then tail + m else last]);
  }

  lemma LineThenRest(line: string, rest: string)
    requires '\n' !in line
    ensures Complete((line + ['\n']) + rest) == [line] + Complete(rest)
    ensures Tail((line + ['\n']) + rest) == Tail(rest)
  {
    OneMoreChar(line, '\n');
    OnlyUnfinished(line);
    OnlyUnfinished(rest);
    AppendText(line + ['\n'], rest);
    JoinNothing(Complete(rest));
  }

  lemma JoinNothing(lines: seq<string>)
    ensures Joined("", lines) == lines
  {
    assert lines != [] ==> "" + lines[0] == lines[0];
  }

  lemma LinesOfMore(s: string, line: string, rest: string)
    requires '\n' !in line && s == (line + ['\n']) + rest && Newline(s) == |line|
    requires Lines(rest) == StripAll(Complete(rest)) + if Tail(rest) == "" then [] else [Tail(rest)]
    ensures Lines(s) == StripAll(Complete(s)) + if Tail(s) == "" then [] else [Tail(s)]
  {
    LineThenRest(line, rest);
    StripFirst(line, Complete(rest));
    FirstLine(s, line, rest);
  }

  lemma FirstLine(s: string, line: string, rest: string)
    requires s == (line + ['\n']) + rest && Newline(s) == |line|
    ensures Lines(s) == [Strip(line)] + Lines(rest)
  {
    assert s[..|line|] == line && s[|line| + 1..] == rest;
  }

  /** Rust's lines are the complete lines, stripped, and the unfinished one if there is any. */
  lemma {:induction false} LinesAre(s: string)
    ensures Lines(s) == StripAll(Complete(s)) + if Tail(s) == "" then [] else [Tail(s)]
    decreases |s|
  {
    var i := Newline(s);
    if i < |s| {
      var line, rest := s[..i], s[i + 1..];
      LinesAre(rest);
      assert s == (line + ['\n']) + rest;
      LinesOfMore(s, line, rest);
    } else {
      OnlyUnfinished(s);
    }
  }

  lemma TailIsEmpty(s: string)
    ensures Tail(s) == "" <==> s == "" || s[|s| - 1] == '\n'
  {
  }

  lemma StripFirst(line: string, lines: seq<string>)
    ensures StripAll([line] + lines) == [Strip(line)] + StripAll(lines)
  {
  }

  /** Lines, each with a newline behind it. */
  function Unlines(lines: seq<string>): string {
    if lines == [] then "" else Unlines(lines[..|lines| - 1]) + lines[|lines| - 1] + "\n"
  }

  /** A text is its complete lines with their newlines, then the unfinished one, and no line contains a newline. */
  lemma {:induction false} TextIsLines(s: string)
    ensures s == Unlines(Complete(s)) + Tail(s)
    ensures '\n' !in Tail(s) && forall i :: 0 <= i < |Complete(s)| ==> '\n' !in Complete(s)[i]
  {
    if s != "" {
      var front, c := s[..|s| - 1], s[|s| - 1];
      TextIsLines(front);
      assert s == front + [c];
      if c == '\n' {
        var lines := Complete(front) + [Tail(front)];
        assert lines[..|lines| - 1] == Complete(front);
        assert s == Unlines(lines) + "";
      }
    }
  }

  /** A line loses one carriage return at its end, and nothing else. */
  lemma StripIs(line: string)
    ensures Strip(line + "\r") == line
    ensures (forall x :: line != x + "\r") ==> Strip(line) == line
  {
    assert (line + "\r")[..|line|] == line;
    if line != "" && line[|line| - 1] == '\r' {
      assert line == line[..|line| - 1] + "\r";
    }
  }

  // ---------------------------------------------------------------- one message

  /** The texts printed for a message, given what is buffered. */
  function Emitted(buffer: string, message: string): seq<string> { JoinedToBuffer(buffer, Complete(message)) }

  function JoinedToBuffer(buffer: string, lines: seq<string>): seq<string> {
    if lines == [] then [] else [buffer + Strip(lines[0])] + StripAll(lines[1..])
  }

  function Buffered(buffer: string, message: string): string {
    if Complete(message) == [] then buffer + message else Tail(message)
  }

  function AsLines(stream: Stream, timestamp: Timestamp, texts: seq<string>): (r: seq<Line>)
    ensures |r| == |texts| && forall i :: 0 <= i < |r| ==> r[i] == Line(stream, timestamp, texts[i])
  {
    if texts == [] then [] else
      AsLines(stream, timestamp, texts[..|texts| - 1]) + [Line(stream, timestamp, texts[|texts| - 1])]
  }

  /** How the lines of a message make up what is printed and what stays buffered. */
  ghost predicate Cut(buffer: string, message: string, lines: seq<string>, texts: seq<string>, rest: string) {
    if message == "" then lines == [] && texts == [] && rest == buffer else
      && lines != []
      && |texts| == (if message[|message| - 1] == '\n' then |lines| else |lines| - 1)
      && (forall k :: 0 <= k < |texts| ==> texts[k] == if k == 0 then buffer + lines[0] else lines[k])
      && rest == if message[|message| - 1] == '\n' then "" else (if |lines| == 1 then buffer else "") + lines[|lines| - 1]
  }

  lemma CutAt(buffer: string, message: string, done: seq<string>, tail: string, lines: seq<string>)
    requires lines == StripAll(done) + if tail == "" then [] else [tail]
    requires tail == "" <==> message == "" || message[|message| - 1] == '\n'
    requires done == [] ==> tail == message
    requires message == "" ==> done == []
    ensures Cut(buffer, message, lines, JoinedToBuffer(buffer, done), if done == [] then buffer + message else tail)
  {
    var texts := JoinedToBuffer(buffer, done);
    assert |texts| == |done| && |StripAll(done)| == |done|;
    assert forall k :: 0 <= k < |done| ==> lines[k] == StripAll(done)[k];
    forall k | 0 <= k < |texts| ensures texts[k] == if k == 0 then buffer + lines[0] else lines[k] {
      JoinedAt(buffer, done, k);
    }
  }

  lemma JoinedAt(buffer: string, lines: seq<string>, k: nat)
    requires k < |lines|
    ensures |JoinedToBuffer(buffer, lines)| == |lines|
    ensures JoinedToBuffer(buffer, lines)[k] == if k == 0 then buffer + Strip(lines[k]) else Strip(lines[k])
  {
    var rest := StripAll(lines[1..]);
    assert k > 0 ==> rest[k - 1] == Strip(lines[k]);
  }

  lemma MessageLines(buffer: string, message: string)
    ensures Cut(buffer, message, Lines(message), Emitted(buffer, message), Buffered(buffer, message))
  {
    LinesAre(message);
    TailIsEmpty(message);
    OnlyUnfinished(message);
    CutAt(buffer, message, Complete(message), Tail(message), Lines(message));
  }

  /** The loop of both emit operations: what to print, in order, and what stays buffered. */
  method SplitLines(buffer: string, message: string, lines: seq<string>, ghost emitted: seq<string>, ghost buffered: string)
    returns (texts: seq<string>, rest: string)
    requires Cut(buffer, message, lines, emitted, buffered)
    ensures texts == emitted && rest == buffered
  {
    texts, rest := [], buffer;
    for idx := 0 to |lines|
      invariant |texts| == if idx <= |emitted| then idx else |emitted|
      invariant forall k :: 0 <= k < |texts| ==> texts[k] == emitted[k]
      invariant rest == if idx == 0 then buffer else if idx <= |emitted| then "" else buffered
    {
      var line := lines[idx];
      if idx == |lines| - 1 {
        // last line, if message did not end with newline, just store it
        if message[|message| - 1] == '\n' {
          texts := texts + [rest + line];
          rest := "";
        } else {
          rest := rest + line;
        }
      } else if idx == 0 {
        // first line, there are more
        texts := texts + [rest + line];
        rest := "";
      } else {
        // middle line
        texts := texts + [line];
      }
    }
  }

  /** One message on one stream: the texts to print and the new buffer. */
  method SplitMessage(buffer: string, message: string) returns (texts: seq<string>, rest: string)
    ensures texts == Emitted(buffer, message)
    ensures rest == Buffered(buffer, message)
  {
    MessageLines(buffer, message);
    texts, rest := SplitLines(buffer, message, Lines(message), Emitted(buffer, message), Buffered(buffer, message));
  }

  datatype Message = Message(stream: Stream, timestamp: Timestamp, text: string)

  /** What the buffers and the terminal hold. */
  datatype Session = Session(stdout: string, stderr: string, printed: seq<Line>)

  function BufferOf(s: Session, stream: Stream): string { if stream == Stdout then s.stdout else s.stderr }

  /** One message on one of the streams. */
  function Next(s: Session, m: Message): Session {
    var lines := AsLines(m.stream, m.timestamp, Emitted(BufferOf(s, m.stream), m.text));
    match m.stream
    case Stdout => Session(Buffered(s.stdout, m.text), s.stderr, s.printed + lines)
    case Stderr => Session(s.stdout, Buffered(s.stderr, m.text), s.printed + lines)
  }

  class ConnectOutput {
    var lastStdoutTimestamp: Timestamp
    var stdout: string
    var lastStderrTimestamp: Timestamp
    var stderr: string
    // what has reached the terminal
    var printed: seq<Line>

    function View(): Session
      reads this
    {
      Session(stdout, stderr, printed)
    }

    constructor (now: Timestamp)
      ensures View() == Session("", "", []) && lastStdoutTimestamp == lastStderrTimestamp == now
    {
      lastStdoutTimestamp, lastStderrTimestamp := now, now;
      stdout, stderr, printed := "", "", [];
    }

    method EmitStdout(timestamp: Timestamp, message: string)
      modifies this
      ensures lastStdoutTimestamp == timestamp && lastStderrTimestamp == old(lastStderrTimestamp)
      ensures View() == Next(old(View()), Message(Stdout, timestamp, message))
    {
      lastStdoutTimestamp := timestamp;
      var texts, rest := SplitMessage(stdout, message);
      printed := printed + AsLines(Stdout, timestamp, texts);
      stdout := rest;
    }

    method EmitStderr(timestamp: Timestamp, message: string)
      modifies this
      ensures lastStderrTimestamp == timestamp && lastStdoutTimestamp == old(lastStdoutTimestamp)
      ensures View() == Next(old(View()), Message(Stderr, timestamp, message))
    {
      lastStderrTimestamp := timestamp;
      var texts, rest := SplitMessage(stderr, message);
      printed := printed + AsLines(Stderr, timestamp, texts);
      stderr := rest;
    }

    /** Prints what is buffered, both streams with the timestamp of the last standard output. */
    method Flush()
      modifies this
      ensures stdout == stderr == ""
      ensures lastStdoutTimestamp == old(lastStdoutTimestamp) && lastStderrTimestamp == old(lastStderrTimestamp)
      ensures printed == old(printed)
                         + (if old(stdout) == "" then [] else [Line(Stdout, old(lastStdoutTimestamp), old(stdout))])
                         + (if old(stderr) == "" then [] else [Line(Stderr, old(lastStdoutTimestamp), old(stderr))])
    {
      if stdout != "" {
        printed := printed + [Line(Stdout, lastStdoutTimestamp, stdout)];
        stdout := "";
      }
      if stderr != "" {
        printed := printed + [Line(Stderr, lastStdoutTimestamp, stderr)];
        stderr := "";
      }
    }
  }

  // ---------------------------------------------------------------- any chunking

  function Flatten(chunks: seq<string>): string {
    if chunks == [] then "" else Flatten(chunks[..|chunks| - 1]) + chunks[|chunks| - 1]
  }

  /** The buffer and the printed texts of one stream after a sequence of messages. */
  function BufferAfter(chunks: seq<string>): string {
    if chunks == [] then "" else Buffered(BufferAfter(chunks[..|chunks| - 1]), chunks[|chunks| - 1])
  }

  function PrintedAfter(chunks: seq<string>): seq<string> {
    if chunks == [] then [] else
      var before, last := chunks[..|chunks| - 1], chunks[|chunks| - 1];
      PrintedAfter(before) + Emitted(BufferAfter(before), last)
  }

  predicate EndsWithCR(s: string) { s != "" && s[|s| - 1] == '\r' }

  /** A message starts with a newline whose carriage return came in an earlier message. */
  ghost predicate SplitsLineEnd(chunks: seq<string>) {
    exists k :: 0 <= k < |chunks| && chunks[k] != "" && chunks[k][0] == '\n' && EndsWithCR(Flatten(chunks[..k]))
  }

  /** However the stream is cut, the buffer is its unfinished line. */
  lemma {:induction false} BufferIsTail(chunks: seq<string>)
    ensures BufferAfter(chunks) == Tail(Flatten(chunks))
  {
    if chunks != [] {
      var before, last := chunks[..|chunks| - 1], chunks[|chunks| - 1];
      BufferIsTail(before);
      AppendText(Flatten(before), last);
    }
  }

  lemma TailEnd(s: string)
    ensures EndsWithCR(Tail(s)) <==> EndsWithCR(s)
  {
  }

  /** A first line is empty exactly when the text starts with a newline. */
  lemma {:induction false} FirstIsEmpty(m: string)
    requires Complete(m) != []
    ensures m != "" && (m[0] == '\n' <==> Complete(m)[0] == "")
  {
    var m0 := m[..|m| - 1];
    OnlyUnfinished(m0);
    if Complete(m0) != [] { FirstIsEmpty(m0); }
  }

  /** What one message prints agrees with the whole stream unless the message starts with a newline cut from its carriage return. */
  lemma EmittedAgrees(s: string, m: string)
    ensures Complete(m) != [] ==>
              (StripAll(Joined(Tail(s), Complete(m))) == Emitted(Tail(s), m)
               <==> !(m[0] == '\n' && EndsWithCR(s)))
  {
    TailEnd(s);
    if Complete(m) != [] {
      FirstIsEmpty(m);
      var first, tail := Complete(m)[0], Tail(s);
      var whole := StripAll([tail + first] + Complete(m)[1..]);
      assert whole == [Strip(tail + first)] + StripAll(Complete(m)[1..]);
      if first == "" {
        assert tail + first == tail;
      } else {
        assert Strip(tail + first) == tail + Strip(first);
      }
      assert whole[0] == Strip(tail + first) && Emitted(tail, m)[0] == tail + Strip(first);
    }
  }

  /**
   * The printed lines are exactly the complete lines of the concatenated messages, line ends removed, if and only
   * if no message boundary separates a carriage return from its newline. Their number is right in any case.
   */
  lemma {:induction false} ChunkingMatters(chunks: seq<string>)
    ensures |PrintedAfter(chunks)| == |Complete(Flatten(chunks))|
    ensures PrintedAfter(chunks) == StripAll(Complete(Flatten(chunks))) <==> !SplitsLineEnd(chunks)
  {
    if chunks != [] {
      var before, last := chunks[..|chunks| - 1], chunks[|chunks| - 1];
      var s := Flatten(before);
      ChunkingMatters(before);
      BufferIsTail(before);
      AppendText(s, last);
      EmittedAgrees(s, last);
      SplitsAtLast(chunks);
      var added := Joined(Tail(s), Complete(last));
      StripTogether(Complete(s), added);
      SplitEqual(PrintedAfter(before), Emitted(Tail(s), last), StripAll(Complete(s)), StripAll(added));
      OnlyUnfinished(last);
    }
  }

  lemma FirstUnfinished(a: string)
    requires '\n' !in a
    ensures BufferAfter([a]) == a && PrintedAfter([a]) == []
  {
    OnlyUnfinished(a);
    OneMoreChunk([], a);
    assert [] + [a] == [a] && "" + a == a;
  }

  lemma NewlineAlone(a: string)
    ensures Emitted(a, ['\n']) == [a]
  {
    OneMoreChar("", '\n');
    assert "" + ['\n'] == ['\n'];
    assert Complete(['\n']) == [""];
    assert a + "" == a;
  }

  /** A line end cut in two: from "a\r" and then "\n" the line is printed with its carriage return. */
  lemma CutLineEnd(a: string)
    requires a == ['a', '\r']
    ensures PrintedAfter([a, ['\n']]) == [a]
    ensures StripAll(Complete(a + ['\n'])) == [['a']]
  {
    FirstUnfinished(a);
    NewlineAlone(a);
    OneMoreChunk([a], ['\n']);
    assert [a] + [['\n']] == [a, ['\n']];
    assert [] + [a] == [a];
    OneMoreChar(a, '\n');
    OnlyUnfinished(a);
    assert [] + [a] == Complete(a + ['\n']);
    assert Strip(a) == ['a'];
  }

  lemma StripTogether(a: seq<string>, b: seq<string>)
    ensures StripAll(a + b) == StripAll(a) + StripAll(b)
  {
  }

  lemma SplitsAtLast(chunks: seq<string>)
    requires chunks != []
    ensures var before, last := chunks[..|chunks| - 1], chunks[|chunks| - 1];
            SplitsLineEnd(chunks) <==> SplitsLineEnd(before) || (last != "" && last[0] == '\n' && EndsWithCR(Flatten(before)))
  {
    var before := chunks[..|chunks| - 1];
    assert forall k :: 0 <= k <= |before| ==> before[..k] == chunks[..k];
  }

  lemma SplitEqual<T>(a: seq<T>, b: seq<T>, c: seq<T>, d: seq<T>)
    requires |a| == |c| && |b| == |d|
    ensures a + b == c + d <==> a == c && b == d
  {
    if a + b == c + d {
      assert a == (a + b)[..|a|] && c == (c + d)[..|a|];
      assert b == (a + b)[|a|..] && d == (c + d)[|a|..];
    }
  }

  lemma {:induction false} NoReturnsNoSplits(chunks: seq<string>)
    requires '\r' !in Flatten(chunks)
    ensures !SplitsLineEnd(chunks)
  {
    if chunks != [] {
      var before := chunks[..|chunks| - 1];
      NoReturnsNoSplits(before);
      SplitsAtLast(chunks);
    }
  }

  /** For a stream without carriage returns chunking does not matter. */
  lemma ChunkingDoesNotMatter(chunks: seq<string>)
    requires '\r' !in Flatten(chunks)
    ensures PrintedAfter(chunks) == Complete(Flatten(chunks))
    ensures BufferAfter(chunks) == Tail(Flatten(chunks))
  {
    NoReturnsNoSplits(chunks);
    ChunkingMatters(chunks);
    BufferIsTail(chunks);
    NothingToStrip(Flatten(chunks));
  }

  lemma {:induction false} NothingToStrip(s: string)
    requires '\r' !in s
    ensures StripAll(Complete(s)) == Complete(s)
  {
    if s != "" {
      var s0 := s[..|s| - 1];
      NothingToStrip(s0);
      TailEnd(s0);
      StripTogether(Complete(s0), [Tail(s0)]);
    }
  }

  // ---------------------------------------------------------------- both streams interleaved

  /** What the buffers and the terminal hold after a sequence of messages. */
  function After(messages: seq<Message>): Session {
    if messages == [] then Session("", "", []) else Next(After(messages[..|messages| - 1]), messages[|messages| - 1])
  }

  function ChunksOf(messages: seq<Message>, stream: Stream): seq<string> {
    if messages == [] then [] else
      var m := messages[|messages| - 1];
      ChunksOf(messages[..|messages| - 1], stream) + if m.stream == stream then [m.text] else []
  }

  function TextsOf(lines: seq<Line>, stream: Stream): seq<string> {
    if lines == [] then [] else
      var l := lines[|lines| - 1];
      TextsOf(lines[..|lines| - 1], stream) + if l.stream == stream then [l.text] else []
  }

  lemma OneMoreLine(lines: seq<Line>, line: Line, wanted: Stream)
    ensures TextsOf(lines + [line], wanted) == TextsOf(lines, wanted) + if line.stream == wanted then [line.text] else []
  {
    assert (lines + [line])[..|lines|] == lines;
  }

  lemma LastLine(stream: Stream, timestamp: Timestamp, texts: seq<string>, before: seq<string>, last: string)
    requires texts == before + [last]
    ensures AsLines(stream, timestamp, texts) == AsLines(stream, timestamp, before) + [Line(stream, timestamp, last)]
  {
    assert texts[..|texts| - 1] == before;
  }

  lemma {:induction false} TextsOfJoined(a: seq<Line>, b: seq<Line>, wanted: Stream)
    ensures TextsOf(a + b, wanted) == TextsOf(a, wanted) + TextsOf(b, wanted)
  {
    if b == [] {
      assert a + b == a;
    } else {
      var before, last := b[..|b| - 1], b[|b| - 1];
      TextsOfJoined(a, before, wanted);
      OneMoreLine(a + before, last, wanted);
      assert a + b == (a + before) + [last];
    }
  }

  lemma {:induction false} TextsOfOne(stream: Stream, timestamp: Timestamp, texts: seq<string>, wanted: Stream)
    ensures TextsOf(AsLines(stream, timestamp, texts), wanted) == if stream == wanted then texts else []
  {
    if texts != [] {
      var before, last := texts[..|texts| - 1], texts[|texts| - 1];
      assert texts == before + [last];
      TextsOfOne(stream, timestamp, before, wanted);
      LastLine(stream, timestamp, texts, before, last);
      OneMoreLine(AsLines(stream, timestamp, before), Line(stream, timestamp, last), wanted);
    }
  }

  lemma OneMoreChunk(chunks: seq<string>, text: string)
    ensures BufferAfter(chunks + [text]) == Buffered(BufferAfter(chunks), text)
    ensures PrintedAfter(chunks + [text]) == PrintedAfter(chunks) + Emitted(BufferAfter(chunks), text)
  {
    assert (chunks + [text])[..|chunks|] == chunks;
  }

  lemma NextIsIndependent(s: Session, m: Message, stream: Stream, chunks: seq<string>)
    requires BufferOf(s, stream) == BufferAfter(chunks) && TextsOf(s.printed, stream) == PrintedAfter(chunks)
    ensures var now := if m.stream == stream then chunks + [m.text] else chunks;
            BufferOf(Next(s, m), stream) == BufferAfter(now) && TextsOf(Next(s, m).printed, stream) == PrintedAfter(now)
  {
    var texts := Emitted(BufferOf(s, m.stream), m.text);
    TextsOfJoined(s.printed, AsLines(m.stream, m.timestamp, texts), stream);
    TextsOfOne(m.stream, m.timestamp, texts, stream);
    if m.stream == stream { OneMoreChunk(chunks, m.text); }
  }

  /** What a message prints comes after all that is printed, each line on the message's stream and with its timestamp. */
  lemma LinesAreStamped(messages: seq<Message>, m: Message) returns (lines: seq<Line>)
    ensures After(messages + [m]).printed == After(messages).printed + lines
    ensures forall i :: 0 <= i < |lines| ==> lines[i].stream == m.stream && lines[i].timestamp == m.timestamp
  {
    assert (messages + [m])[..|messages|] == messages;
    var s := After(messages);
    lines := AsLines(m.stream, m.timestamp, Emitted(BufferOf(s, m.stream), m.text));
  }

  /** The streams do not disturb each other: each is buffered and printed as if it were alone. */
  lemma {:induction false} StreamsAreIndependent(messages: seq<Message>, stream: Stream)
    ensures BufferOf(After(messages), stream) == BufferAfter(ChunksOf(messages, stream))
    ensures TextsOf(After(messages).printed, stream) == PrintedAfter(ChunksOf(messages, stream))
  {
    if messages != [] {
      var before, m := messages[..|messages| - 1], messages[|messages| - 1];
      StreamsAreIndependent(before, stream);
      NextIsIndependent(After(before), m, stream, ChunksOf(before, stream));
      assert ChunksOf(before, stream) + [] == ChunksOf(before, stream);
    }
  }
}
