/** How the MCP transports read their streams: messages one per line (stdio) and server-sent events. */
module McpTransports {
  import opened Sequences
  import opened Characters
  import opened Options
  import opened Lines
  import opened Octets
  import opened Utf8

  // ---------------------------------------------------------------------------------------------
  // stdio: one JSON message per line

  function TrimStart(s: string): string {
    if s != "" && IsSpace(s[0]) then TrimStart(s[1..]) else s
  }

  function TrimEnd(s: string): string {
    if s != "" && IsSpace(s[|s| - 1]) then TrimEnd(s[..|s| - 1]) else s
  }

  function Trim(s: string): string { TrimEnd(TrimStart(s)) }

  /** Blank lines and lines that are not JSON are skipped. */
  function Heard<T>(parse: string -> Option<T>, lines: seq<string>): seq<T> {
    if lines == [] then []
    else if Trim(lines[0]) == "" || parse(Trim(lines[0])).None? then Heard(parse, lines[1..])
    else [parse(Trim(lines[0])).value] + Heard(parse, lines[1..])
  }

  lemma HeardMore<T>(parse: string -> Option<T>, messages: seq<T>, line: string, later: seq<string>)
    ensures messages + Heard(parse, [line] + later)
         == (if Trim(line) == "" || parse(Trim(line)).None? then messages else messages + [parse(Trim(line)).value])
            + Heard(parse, later)
  {
    assert ([line] + later)[1..] == later;
    if Trim(line) != "" && parse(Trim(line)).Some? {
      MoveOne(messages, parse(Trim(line)).value, Heard(parse, later));
    }
  }

  class StdioTransport<T> {
    const decode: Bytes -> string
    const parse: string -> Option<T>
    var buffer: string

    constructor (decode: Bytes -> string, parse: string -> Option<T>)
      ensures this.decode == decode && this.parse == parse && buffer == ""
    {
      this.decode, this.parse, buffer := decode, parse, "";
    }

    /** Every chunk is decoded on its own. */
    method OnData(chunk: Bytes) returns (messages: seq<T>)
      modifies this
      ensures messages == Heard(parse, Split(old(buffer) + decode(chunk)).0)
      ensures buffer == Split(old(buffer) + decode(chunk)).1
    {
      buffer := buffer + decode(chunk);
      messages := [];
      while IndexOf(buffer, '\n', 0).Some?
        invariant messages + Heard(parse, Split(buffer).0) == Heard(parse, Split(old(buffer) + decode(chunk)).0)
        invariant Split(buffer).1 == Split(old(buffer) + decode(chunk)).1
        decreases |buffer|
      {
        var idx := IndexOf(buffer, '\n', 0).value;
        var line := Trim(buffer[..idx]);
        HeardMore(parse, messages, buffer[..idx], Split(buffer[idx + 1..]).0);
        buffer := buffer[idx + 1..];
        if line == "" {
          continue;
        }
        if parse(line).Some? {
          messages := messages + [parse(line).value];
        }
      }
    }
  }

  /** What send writes. */
  function Sent<T>(write: T -> string, messages: seq<T>): string {
    if messages == [] then "" else write(messages[0]) + ['\n'] + Sent(write, messages[1..])
  }

  /** Printed JSON is one line, does not start or end in white space, and is read back. */
  ghost predicate Faithful<T(!new)>(write: T -> string, parse: string -> Option<T>) {
    forall m :: write(m) != "" && '\n' !in write(m) && Trim(write(m)) == write(m) && parse(write(m)) == Some(m)
  }

  lemma {:induction false} SentIsHeard<T(!new)>(write: T -> string, parse: string -> Option<T>, messages: seq<T>)
    requires Faithful(write, parse)
    ensures Heard(parse, Split(Sent(write, messages)).0) == messages && Split(Sent(write, messages)).1 == ""
  {
    if messages != [] {
      SplitOff(write(messages[0]), Sent(write, messages[1..]));
      SentIsHeard(write, parse, messages[1..]);
      HeardMore(parse, [], write(messages[0]), Split(Sent(write, messages[1..])).0);
      assert messages == [messages[0]] + messages[1..];
    }
  }

  /** However the pipe cuts the bytes between characters, the messages sent are the messages heard. */
  lemma StdioRoundTrip<T(!new)>(write: T -> string, parse: string -> Option<T>, decode: Bytes -> string, messages: seq<T>, chunks: seq<Bytes>)
    requires Faithful(write, parse) && Decodes(decode)
    requires Joined(chunks) == Encode(Sent(write, messages)) && Aligned(chunks)
    ensures Heard(parse, Fed("", Decoded(decode, chunks)).0) == messages && Fed("", Decoded(decode, chunks)).1 == ""
  {
    AlignedSurvives(decode, Sent(write, messages), chunks);
    ChunkingDoesNotMatter("", Decoded(decode, chunks));
    assert "" + Sent(write, messages) == Sent(write, messages);
    SentIsHeard(write, parse, messages);
  }

  /** A cut inside a character changes the lines that are heard. */
  lemma CutInsideCharacterShows<T(!new)>(write: T -> string, decode: Bytes -> string, messages: seq<T>, chunks: seq<Bytes>)
    requires Decodes(decode) && REPLACEMENT !in Sent(write, messages)
    requires Joined(chunks) == Encode(Sent(write, messages)) && !Aligned(chunks)
    ensures Fed("", Decoded(decode, chunks)) != Split(Sent(write, messages))
  {
    var text := Joined(Decoded(decode, chunks));
    TextSurvivesIffAligned(decode, Sent(write, messages), chunks);
    ChunkingDoesNotMatter("", Decoded(decode, chunks));
    assert "" + text == text;
    SplitRebuilds(text);
    SplitRebuilds(Sent(write, messages));
  }

  // ---------------------------------------------------------------------------------------------
  // Server-sent events

  datatype SseEvent = SseEvent(name: string, data: string)

  /** The event being read, and the events dispatched so far. */
  datatype Reading = Reading(event: string, data: seq<string>, out: seq<SseEvent>)

  function Dispatch(r: Reading): Reading {
    Reading("", [], if r.data == [] then r.out
                    else r.out + [SseEvent(if r.event == "" then "message" else r.event, JoinLines(r.data))])
  }

  /** The field's name, and its value less one leading space. */
  function Field(line: string): (string, string) {
    match IndexOf(line, ':', 0)
    case None => (line, "")
    case Some(k) =>
      var val := line[k + 1..];
      (line[..k], if val != "" && val[0] == ' ' then val[1..] else val)
  }

  function Take(r: Reading, line: string): Reading {
    if line == "" then Dispatch(r)
    else if line[0] == ':' then r
    else if Field(line).0 == "event" then r.(event := Field(line).1)
    else if Field(line).0 == "data" then r.(data := r.data + [Field(line).1])
    else r
  }

  function TakeAll(r: Reading, lines: seq<string>): Reading
    decreases |lines|
  {
    if lines == [] then r else TakeAll(Take(r, lines[0]), lines[1..])
  }

  /** What a stream with this text delivers: the lines it completes, and a dispatch at its end. */
  function Received(text: string): seq<SseEvent> {
    Dispatch(TakeAll(Reading("", [], []), Chopped(Split(text).0))).out
  }

  lemma TakeOneLine(r: Reading, line: string, text: string, later: string)
    requires Split(text).0 != [] && Chop(Split(text).0[0]) == line
    requires Split(text) == ([Split(text).0[0]] + Split(later).0, Split(later).1)
    ensures TakeAll(r, Chopped(Split(text).0)) == TakeAll(Take(r, line), Chopped(Split(later).0))
  {
    assert Chopped(Split(text).0)[1..] == Chopped(Split(later).0);
  }

  /** What a reader with this state and buffer still delivers when `ahead` follows. */
  ghost function Delivers(r: Reading, text: string): seq<SseEvent> {
    Dispatch(TakeAll(r, Chopped(Split(text).0))).out
  }

  lemma NextChunk(buffer: string, chunks: seq<string>, i: nat)
    requires i < |chunks|
    ensures buffer + Joined(chunks[i..]) == buffer + chunks[i] + Joined(chunks[i + 1..])
  {
    assert chunks[i..][1..] == chunks[i + 1..];
  }

  lemma NothingAhead(r: Reading, buffer: string)
    requires LineEnd(buffer, 0).None?
    ensures Delivers(r, buffer + Joined([])) == Dispatch(r).out
  {
    assert buffer + "" == buffer;
    LineEndIsLineFeed(buffer);
  }

  lemma EverythingAhead(chunks: seq<string>)
    ensures "" + Joined(chunks[0..]) == Joined(chunks)
  {
    assert chunks[0..] == chunks;
  }

  /** However the stream is cut into chunks, also between CR and LF, it delivers what its whole text does. */
  method ReadSseStream(chunks: seq<string>) returns (out: seq<SseEvent>)
    ensures out == Received(Joined(chunks))
  {
    var buffer, r := "", Reading("", [], []);
    var i := 0;
    EverythingAhead(chunks);
    while i < |chunks|
      invariant 0 <= i <= |chunks| && LineEnd(buffer, 0).None?
      invariant Delivers(r, buffer + Joined(chunks[i..])) == Received(Joined(chunks))
    {
      NextChunk(buffer, chunks, i);
      buffer := buffer + chunks[i];
      r, buffer := ReadLines(r, buffer, Joined(chunks[i + 1..]));
      i := i + 1;
    }
    assert chunks[i..] == [];
    NothingAhead(r, buffer);
    r := Dispatch(r);
    out := r.out;
  }

  /** Takes every line the buffer completes, whatever is still `ahead` in the stream. */
  method ReadLines(before: Reading, text: string, ghost ahead: string) returns (r: Reading, buffer: string)
    ensures LineEnd(buffer, 0).None?
    ensures TakeAll(r, Chopped(Split(buffer + ahead).0)) == TakeAll(before, Chopped(Split(text + ahead).0))
  {
    r, buffer := before, text;
    while LineEnd(buffer, 0).Some?
      invariant TakeAll(r, Chopped(Split(buffer + ahead).0)) == TakeAll(before, Chopped(Split(text + ahead).0))
      decreases |buffer|
    {
      var idx := LineEnd(buffer, 0).value;
      var line := buffer[..idx];
      LineEndAhead(buffer, ahead);
      LineEndIsLineFeed(buffer + ahead);
      ghost var later := buffer[Behind(buffer, idx)..] + ahead;
      assert (buffer + ahead)[Behind(buffer + ahead, idx)..] == later;
      assert (buffer + ahead)[..idx] == line;
      TakeOneLine(r, line, buffer + ahead, later);
      buffer := buffer[Behind(buffer, idx)..];
      if line == "" {
        r := Dispatch(r);
        continue;
      }
      if line[0] == ':' {
        continue;
      }
      var field := Field(line);
      if field.0 == "event" {
        r := r.(event := field.1);
      } else if field.0 == "data" {
        r := r.(data := r.data + [field.1]);
      }
    }
  }

  lemma LineEndAhead(a: string, b: string)
    requires LineEnd(a, 0).Some?
    ensures LineEnd(a + b, 0) == LineEnd(a, 0) && Behind(a + b, LineEnd(a, 0).value) == Behind(a, LineEnd(a, 0).value)
  {
    LineEndInFront(a, b, 0);
  }

  lemma {:induction false} LineEndInFront(a: string, b: string, i: nat)
    requires LineEnd(a, i).Some?
    ensures LineEnd(a + b, i) == LineEnd(a, i)
    decreases |a| - i
  {
    if !LineEndAt(a, i) {
      LineEndInFront(a, b, i + 1);
    }
  }
}
