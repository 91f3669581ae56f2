/** Newline framing of the local socket: both ends collect bytes in a buffer and hand out one
    trimmed, non-blank command per terminated line. */
module Framing {
  import opened Basics

  type Bytes = seq<Byte>

  const NEWLINE: Byte := 10

  predicate IsSpace(b: Byte) { b == 32 || 9 <= b <= 13 }

  function TrimLeft(s: Bytes): Bytes {
    if s != [] && IsSpace(s[0]) then TrimLeft(s[1..]) else s
  }

  function TrimRight(s: Bytes): Bytes {
    if s != [] && IsSpace(s[|s| - 1]) then TrimRight(s[..|s| - 1]) else s
  }

  function Trim(s: Bytes): Bytes { TrimRight(TrimLeft(s)) }

  predicate Blank(s: Bytes) { forall b :: b in s ==> b == 32 || 9 <= b <= 13 }

  /** Trimming cuts blanks off both ends, and all of them. */
  lemma TrimMeans(s: Bytes) returns (i: nat, j: nat)
    ensures i <= j <= |s| && Trim(s) == s[i..j] && Blank(s[..i]) && Blank(s[j..])
    ensures i < j ==> !Blank([s[i]]) && !Blank([s[j - 1]])
  {
    i := LeftCut(s);
    var k := RightCut(s[i..]);
    j := i + k;
    assert s[i..][..k] == s[i..j] && s[j..] == s[i..][k..];
    if i < j { assert s[i..][k - 1] == s[j - 1]; }
  }

  lemma {:induction false} LeftCut(s: Bytes) returns (i: nat)
    ensures i <= |s| && TrimLeft(s) == s[i..] && Blank(s[..i]) && (i < |s| ==> !Blank([s[i]]))
    decreases |s|
  {
    i := 0;
    if s != [] && IsSpace(s[0]) {
      var k := LeftCut(s[1..]);
      i := k + 1;
      assert s[..i] == [s[0]] + s[1..][..k] && s[1..][k..] == s[i..];
    } else if s != [] {
      assert s[0] in [s[0]];
    }
  }

  lemma {:induction false} RightCut(s: Bytes) returns (j: nat)
    ensures j <= |s| && TrimRight(s) == s[..j] && Blank(s[j..]) && (j > 0 ==> !Blank([s[j - 1]]))
    decreases |s|
  {
    j := |s|;
    if s != [] && IsSpace(s[|s| - 1]) {
      var n := |s| - 1;
      j := RightCut(s[..n]);
      assert s[j..] == s[..n][j..] + [s[n]] && s[..n][..j] == s[..j];
    } else if s != [] {
      assert s[|s| - 1] in [s[|s| - 1]];
    }
  }

  // ---------------------------------------------------------------- reference: split, trim, drop blanks

  /** The stream cut at every newline; the last segment is the unterminated one. */
  function Segments(s: Bytes): (r: seq<Bytes>)
    ensures r != []
  {
    if s == [] then [[]]
    else
      var r := Segments(s[1..]);
      if s[0] == NEWLINE then [[]] + r else [[s[0]] + r[0]] + r[1..]
  }

  function Clean(lines: seq<Bytes>): seq<Bytes> {
    if lines == [] then []
    else (if Trim(lines[0]) == [] then [] else [Trim(lines[0])]) + Clean(lines[1..])
  }

  /** The commands a whole stream stands for, and what it leaves in the buffer. */
  function Commands(s: Bytes): seq<Bytes> { Clean(Segments(s)[..|Segments(s)| - 1]) }
  function Rest(s: Bytes): Bytes { Segments(s)[|Segments(s)| - 1] }

  function Concat(chunks: seq<Bytes>): Bytes {
    if chunks == [] then [] else chunks[0] + Concat(chunks[1..])
  }

  // ---------------------------------------------------------------- laws of the reference

  lemma {:induction false} NoNewlineIsRest(s: Bytes)
    requires NEWLINE !in s
    ensures Segments(s) == [s]
  {
    if s != [] {
      NoNewlineIsRest(s[1..]);
      assert [s[0]] + s[1..] == s;
    }
  }

  lemma OpenBuffer(s: Bytes)
    requires NEWLINE !in s
    ensures Commands(s) == [] && Rest(s) == s
  {
    NoNewlineIsRest(s);
    assert Clean([s][..0]) == [];
  }

  lemma {:induction false} FirstLine(line: Bytes, s: Bytes)
    requires NEWLINE !in line
    ensures Segments(line + [NEWLINE] + s) == [line] + Segments(s)
  {
    if line == [] {
      assert (line + [NEWLINE] + s)[1..] == s;
    } else {
      FirstLine(line[1..], s);
      assert (line + [NEWLINE] + s)[1..] == line[1..] + [NEWLINE] + s;
      assert [line[0]] + line[1..] == line;
      var r := Segments(line[1..] + [NEWLINE] + s);
      assert r[0] == line[1..] && r[1..] == Segments(s);
    }
  }

  lemma {:induction false} CleanConcat(a: seq<Bytes>, b: seq<Bytes>)
    ensures Clean(a + b) == Clean(a) + Clean(b)
  {
    if a == [] { assert a + b == b; }
    else {
      assert (a + b)[1..] == a[1..] + b;
      CleanConcat(a[1..], b);
    }
  }

  /** One terminated line at the front is one command, unless it is blank. */
  lemma CommandsStep(line: Bytes, s: Bytes)
    requires NEWLINE !in line
    ensures Commands(line + [NEWLINE] + s) == Clean([line]) + Commands(s)
    ensures Rest(line + [NEWLINE] + s) == Rest(s)
  {
    FirstLine(line, s);
    var t := Segments(s);
    assert ([line] + t)[..|t|] == [line] + t[..|t| - 1];
    CleanConcat([line], t[..|t| - 1]);
  }

  /** Segments of a concatenation: the open segment of the left part is continued by the right part. */
  lemma {:induction false} SegmentsConcat(a: Bytes, b: Bytes)
    ensures var s := Segments(a);
            Segments(a + b) == s[..|s| - 1] + Segments(s[|s| - 1] + b)
    decreases |a|
  {
    if a == [] {
      assert a + b == b && [] + b == b;
    } else if NEWLINE !in a {
      NoNewlineIsRest(a);
    } else {
      var i := IndexOf(a);
      assert a == a[..i] + [NEWLINE] + a[i + 1..];
      assert a + b == a[..i] + [NEWLINE] + (a[i + 1..] + b);
      FirstLine(a[..i], a[i + 1..]);
      FirstLine(a[..i], a[i + 1..] + b);
      SegmentsConcat(a[i + 1..], b);
      var t := Segments(a[i + 1..]);
      assert ([a[..i]] + t)[..|t|] == [a[..i]] + t[..|t| - 1];
    }
  }

  /** Reading in two portions is reading at once: the second starts from what the first left. */
  lemma CommandsConcat(a: Bytes, b: Bytes)
    ensures Commands(a + b) == Commands(a) + Commands(Rest(a) + b)
    ensures Rest(a + b) == Rest(Rest(a) + b)
  {
    SegmentsConcat(a, b);
    var s, t := Segments(a), Segments(Rest(a) + b);
    var u := s[..|s| - 1] + t;
    assert u[..|u| - 1] == s[..|s| - 1] + t[..|t| - 1];
    CleanConcat(s[..|s| - 1], t[..|t| - 1]);
  }

  lemma RestIsOpen(s: Bytes)
    ensures NEWLINE !in Rest(s)
  {
    if s != [] {
      var r := Segments(s[1..]);
      RestIsOpen(s[1..]);
    }
  }

  /** The position of the first newline, as QByteArray::indexOf finds it. */
  function IndexOf(s: Bytes): (i: nat)
    ensures i <= |s| && NEWLINE !in s[..i] && (i < |s| <==> NEWLINE in s) && (i < |s| ==> s[i] == NEWLINE)
  {
    if s == [] || s[0] == NEWLINE then 0
    else
      assert s == [s[0]] + s[1..];
      var i := IndexOf(s[1..]);
      assert s[..i + 1] == [s[0]] + s[1..][..i];
      i + 1
  }

  // ---------------------------------------------------------------- the two reading loops

  class LineReader {
    var buffer: Bytes

    constructor ()
      ensures buffer == []
    {
      buffer := [];
    }

    /** Takes one line off a buffer known to hold a newline. */
    method TakeLine() returns (command: Bytes)
      requires NEWLINE in buffer
      modifies this
      ensures |buffer| < |old(buffer)|
      ensures Commands(old(buffer)) == (if command == [] then [] else [command]) + Commands(buffer)
      ensures Rest(old(buffer)) == Rest(buffer)
    {
      var pos := IndexOf(buffer);
      var line := buffer[..pos];
      assert buffer == line + [NEWLINE] + buffer[pos + 1..];
      CommandsStep(line, buffer[pos + 1..]);
      buffer := buffer[pos + 1..];
      command := Trim(line);
      assert Clean([line][1..]) == [];
    }

    /** The client's loop: append what arrived, then take lines until none is complete. */
    method ReadClient(input: Bytes) returns (commands: seq<Bytes>)
      modifies this
      ensures commands == Commands(old(buffer) + input)
      ensures buffer == Rest(old(buffer) + input)
    {
      hide Commands, Rest;
      buffer := buffer + input;
      ghost var whole := buffer;
      commands := [];
      while NEWLINE in buffer
        invariant commands + Commands(buffer) == Commands(whole) && Rest(buffer) == Rest(whole)
        decreases |buffer|
      {
        var command := TakeLine();
        if command != [] { commands := commands + [command]; }
      }
      OpenBuffer(buffer);
    }

    /** The daemon's loop: read more only when no line is complete, stop at an empty read.
        `arrivals` is what successive reads of the socket return. */
    method ReadDaemon(arrivals: seq<Bytes>) returns (commands: seq<Bytes>, used: nat)
      modifies this
      ensures used <= |arrivals| && (used < |arrivals| ==> arrivals[used] == [])
      ensures commands == Commands(old(buffer) + Concat(arrivals[..used]))
      ensures buffer == Rest(old(buffer) + Concat(arrivals[..used]))
    {
      commands, used := [], 0;
      ghost var whole := buffer;
      assert Concat(arrivals[..0]) == [];
      hide Commands, Rest, Concat;
      while NEWLINE in buffer || (used < |arrivals| && arrivals[used] != [])
        invariant used <= |arrivals| && whole == old(buffer) + Concat(arrivals[..used])
        invariant commands + Commands(buffer) == Commands(whole) && Rest(buffer) == Rest(whole)
        decreases |arrivals| - used, |buffer|
      {
        if NEWLINE !in buffer {
          ConcatTake(old(buffer), arrivals, used);
          OpenBufferGrows(whole, commands, buffer, arrivals[used]);
          whole := whole + arrivals[used];
          buffer := buffer + arrivals[used];
          used := used + 1;
        } else {
          var command := TakeLine();
          if command != [] { commands := commands + [command]; }
        }
      }
      OpenBuffer(buffer);
    }
  }

  /** A buffer without a complete line keeps standing for the stream when more arrives. */
  lemma OpenBufferGrows(whole: Bytes, commands: seq<Bytes>, buffer: Bytes, chunk: Bytes)
    requires NEWLINE !in buffer && commands + Commands(buffer) == Commands(whole) && Rest(buffer) == Rest(whole)
    ensures commands + Commands(buffer + chunk) == Commands(whole + chunk)
    ensures Rest(buffer + chunk) == Rest(whole + chunk)
  {
    hide Commands, Rest;
    OpenBuffer(buffer);
    CommandsConcat(whole, chunk);
  }

  lemma ConcatTake(start: Bytes, chunks: seq<Bytes>, n: nat)
    requires n < |chunks|
    ensures start + Concat(chunks[..n]) + chunks[n] == start + Concat(chunks[..n + 1])
  {
    ConcatSnoc(chunks[..n], chunks[n]);
    assert chunks[..n + 1] == chunks[..n] + [chunks[n]];
  }

  lemma {:induction false} ConcatSnoc(chunks: seq<Bytes>, c: Bytes)
    ensures Concat(chunks + [c]) == Concat(chunks) + c
  {
    if chunks == [] {
      assert chunks + [c] == [c] && [c][1..] == [];
      assert Concat([c]) == c + Concat([]);
    } else {
      assert (chunks + [c])[1..] == chunks[1..] + [c];
      ConcatSnoc(chunks[1..], c);
    }
  }

  // ---------------------------------------------------------------- chunking and round trip

  /** The commands handed out when a stream arrives in these chunks, one read per chunk. */
  function ReadChunks(buffer: Bytes, chunks: seq<Bytes>): (seq<Bytes>, Bytes)
    decreases |chunks|
  {
    if chunks == [] then ([], buffer)
    else
      var (later, rest) := ReadChunks(Rest(buffer + chunks[0]), chunks[1..]);
      (Commands(buffer + chunks[0]) + later, rest)
  }

  /** However a stream is cut into chunks, its commands and the leftover are those of the whole. */
  lemma {:induction false} ChunkingIsInvisible(buffer: Bytes, chunks: seq<Bytes>)
    requires NEWLINE !in buffer
    ensures ReadChunks(buffer, chunks) == (Commands(buffer + Concat(chunks)), Rest(buffer + Concat(chunks)))
    decreases |chunks|
  {
    hide Segments, Commands, Rest;
    if chunks == [] {
      assert buffer + [] == buffer;
      OpenBuffer(buffer);
    } else {
      var a, b := buffer + chunks[0], Concat(chunks[1..]);
      RestIsOpen(a);
      ChunkingIsInvisible(Rest(a), chunks[1..]);
      CommandsConcat(a, b);
      assert a + b == buffer + Concat(chunks);
    }
  }

  /** What write() puts on the wire for a sequence of messages. */
  function Written(messages: seq<Bytes>): Bytes {
    if messages == [] then [] else messages[0] + [10] + Written(messages[1..])
  }

  lemma {:induction false} WrittenSegments(messages: seq<Bytes>)
    requires forall m :: m in messages ==> NEWLINE !in m
    ensures Segments(Written(messages)) == messages + [[]]
  {
    if messages != [] {
      WrittenSegments(messages[1..]);
      FirstLine(messages[0], Written(messages[1..]));
      assert [messages[0]] + (messages[1..] + [[]]) == messages + [[]];
    }
  }

  predicate WireReady(m: Bytes) { m != [] && Trim(m) == m }

  /** Starts with an opening and ends with a closing brace, like every compact JSON object. */
  predicate Braced(m: Bytes) { |m| >= 2 && m[0] == 123 && m[|m| - 1] == 125 }

  lemma BracedIsWireReady(m: Bytes)
    requires Braced(m)
    ensures WireReady(m)
  {}

  lemma {:induction false} CleanKeeps(messages: seq<Bytes>)
    ensures |Clean(messages)| <= |messages|
    ensures Clean(messages) == messages <==> forall m :: m in messages ==> WireReady(m)
  {
    if messages != [] {
      CleanKeeps(messages[1..]);
      assert messages == [messages[0]] + messages[1..];
      if Trim(messages[0]) == [] {
        assert |Clean(messages)| < |messages|;
        assert messages[0] in messages && !WireReady(messages[0]);
      } else {
        assert Clean(messages)[0] == Trim(messages[0]) && Clean(messages)[1..] == Clean(messages[1..]);
        assert messages[0] in messages;
      }
    }
  }

  /** Newline-free messages that were written come back, whatever the chunks, exactly when none
      is blank or has blanks at its ends; so the JSON objects of the protocol always do. */
  lemma WrittenMessagesComeBack(messages: seq<Bytes>, chunks: seq<Bytes>)
    requires forall m :: m in messages ==> NEWLINE !in m
    requires Concat(chunks) == Written(messages)
    ensures ReadChunks([], chunks) == (Clean(messages), [])
    ensures ReadChunks([], chunks).0 == messages <==> forall m :: m in messages ==> WireReady(m)
    ensures (forall m :: m in messages ==> Braced(m)) ==> ReadChunks([], chunks) == (messages, [])
  {
    hide Trim, Clean;
    forall m | m in messages && Braced(m) ensures WireReady(m) { BracedIsWireReady(m); }
    ChunkingIsInvisible([], chunks);
    assert [] + Concat(chunks) == Concat(chunks);
    WrittenSegments(messages);
    assert (messages + [[]])[..|messages|] == messages;
    CleanKeeps(messages);
  }

  // ---------------------------------------------------------------- a stream in flight, and one cut short

  predicate Sendable(m: Bytes) { NEWLINE !in m && Braced(m) }

  /** What a stream of messages stands for once all of it has arrived. */
  lemma WrittenCommands(messages: seq<Bytes>)
    requires forall m :: m in messages ==> Sendable(m)
    ensures Commands(Written(messages)) == messages && Rest(Written(messages)) == []
  {
    hide Trim, Clean;
    WrittenSegments(messages);
    assert (messages + [[]])[..|messages|] == messages;
    CleanKeeps(messages);
    forall m | m in messages ensures WireReady(m) { BracedIsWireReady(m); }
  }

  /** A byte stream is a first-in first-out channel of messages: when n bytes have arrived the
      messages handed out are the first k, and the bytes still to come hand out the others. */
  lemma StreamIsFifo(messages: seq<Bytes>, n: nat) returns (k: nat)
    requires (forall m :: m in messages ==> Sendable(m)) && n <= |Written(messages)|
    ensures k <= |messages|
    ensures Commands(Written(messages)[..n]) == messages[..k]
    ensures Commands(Rest(Written(messages)[..n]) + Written(messages)[n..]) == messages[k..]
  {
    hide Commands, Rest, Written;
    var w := Written(messages);
    WrittenCommands(messages);
    assert w == w[..n] + w[n..];
    CommandsConcat(w[..n], w[n..]);
    k := |Commands(w[..n])|;
  }

  /** What a reader has left over when a stream breaks off: nothing, or the beginning of one
      of its messages. */
  lemma {:induction false} LeftoverIsAPrefix(messages: seq<Bytes>, n: nat)
    requires (forall m :: m in messages ==> Sendable(m)) && n <= |Written(messages)|
    ensures var b := Rest(Written(messages)[..n]);
            NEWLINE !in b && (b == [] || b[0] == 123)
  {
    hide Commands, Rest;
    if messages == [] || n <= |messages[0]| {
      assert messages == [] ==> Written(messages)[..n] == [];
      assert messages != [] ==> Written(messages)[..n] == messages[0][..n] && messages[0] in messages;
      OpenBuffer(Written(messages)[..n]);
    } else {
      assert messages[0] in messages;
      var later := n - |messages[0]| - 1;
      LeftoverIsAPrefix(messages[1..], later);
      assert Written(messages)[..n] == messages[0] + [NEWLINE] + Written(messages[1..])[..later];
      CommandsStep(messages[0], Written(messages[1..])[..later]);
    }
  }

  lemma GluedLine(b: Bytes, m: Bytes)
    requires Sendable(m) && NEWLINE !in b && (b == [] || b[0] == 123)
    ensures Sendable(b + m) && Clean([b + m]) == [b + m] && (b + m == m <==> b == [])
  {
    hide Trim;
    var line := b + m;
    assert |line| == |b| + |m| && line[|line| - 1] == m[|m| - 1];
    BracedIsWireReady(line);
    var lines: seq<Bytes> := [line];
    assert lines[1..] == [];
  }

  lemma GluedWritten(b: Bytes, next: seq<Bytes>)
    requires next != []
    ensures b + Written(next) == (b + next[0]) + [NEWLINE] + Written(next[1..])
  {
    var tail := Written(next[1..]);
    assert Written(next) == next[0] + [NEWLINE] + tail;
    hide Written;
    assert b + (next[0] + [NEWLINE] + tail) == (b + next[0]) + [NEWLINE] + tail;
  }

  lemma GluedStream(b: Bytes, next: seq<Bytes>)
    requires NEWLINE !in b && (b == [] || b[0] == 123) && next != [] && forall m :: m in next ==> Sendable(m)
    ensures Commands(b + Written(next)) == [b + next[0]] + next[1..]
  {
    hide Commands, Rest, Clean, Written, Braced;
    assert next[0] in next;
    forall m | m in next[1..] ensures Sendable(m) { assert m in next; }
    GluedWritten(b, next);
    GluedLine(b, next[0]);
    WrittenCommands(next[1..]);
    CommandsStep(b + next[0], Written(next[1..]));
  }

  /** The client keeps its buffer when the socket is lost.  If the stream broke off inside a
      message, the first message of the next stream comes out glued to that leftover and every
      later one is intact; if it broke off between messages, nothing is lost. */
  lemma CutStreamGarblesOneMessage(messages: seq<Bytes>, n: nat, next: seq<Bytes>)
    requires (forall m :: m in messages ==> Sendable(m)) && (forall m :: m in next ==> Sendable(m))
    requires n <= |Written(messages)| && next != []
    ensures var b := Rest(Written(messages)[..n]);
            && Commands(b + Written(next)) == [b + next[0]] + next[1..]
            && (Commands(b + Written(next)) == next <==> b == [])
  {
    hide Commands, Rest, Clean, Written, Sendable;
    var b := Rest(Written(messages)[..n]);
    LeftoverIsAPrefix(messages, n);
    GluedStream(b, next);
    var r := [b + next[0]] + next[1..];
    assert |r[0]| == |b| + |next[0]|;
    if b == [] { assert b + next[0] == next[0] && r == next; }
  }
}
