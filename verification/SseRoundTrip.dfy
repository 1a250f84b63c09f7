/** Server-sent events written out as lines, and what a reader makes of them (sections 9.2.5 and 9.2.6 of
    the WHATWG HTML standard, with LF and CRLF line ends only). */
module SseRoundTrip {
  import opened Sequences
  import opened Lines
  import opened McpTransports

  /** The lines of a text, at least one. */
  function LinesOf(text: string): (r: seq<string>)
    ensures |r| > 0
  {
    Split(text).0 + [Split(text).1]
  }

  function DataLines(pieces: seq<string>): (r: seq<string>)
    ensures |r| == |pieces|
  {
    seq(|pieces|, k requires 0 <= k < |pieces| => "data: " + pieces[k])
  }

  /** An event as lines: its name, its data line by line, and an empty line. */
  function EventLines(name: string, pieces: seq<string>): (r: seq<string>)
    ensures |r| == |pieces| + 2
  {
    ["event: " + name] + DataLines(pieces) + [""]
  }

  function AllLines(events: seq<SseEvent>): seq<string> {
    if events == [] then [] else EventLines(events[0].name, LinesOf(events[0].data)) + AllLines(events[1..])
  }

  ghost predicate Bare(pieces: seq<string>) {
    forall k | 0 <= k < |pieces| :: '\n' !in pieces[k]
  }

  // ---------------------------------------------------------------------------------------------
  // Lines of a text

  lemma {:induction false} LinesAreJoined(text: string)
    ensures Bare(LinesOf(text)) && JoinLines(LinesOf(text)) == text
    decreases |text|
  {
    match IndexOf(text, '\n', 0)
    case None =>
    case Some(k) =>
      LinesAreJoined(text[k + 1..]);
      assert LinesOf(text) == [text[..k]] + LinesOf(text[k + 1..]);
      assert text == text[..k] + ['\n'] + text[k + 1..];
  }

  lemma OneMoreLine(line: string, text: string)
    requires '\n' !in line
    ensures LinesOf(line + ['\n'] + text) == [line] + LinesOf(text)
  {
    SplitOff(line, text);
  }

  lemma {:induction false} JoinedIsSplit(pieces: seq<string>)
    requires Bare(pieces) && pieces != []
    ensures LinesOf(JoinLines(pieces)) == pieces
  {
    assert pieces == [pieces[0]] + pieces[1..];
    if |pieces| == 1 {
      Unfinished(pieces[0]);
    } else {
      JoinedIsSplit(pieces[1..]);
      OneMoreLine(pieces[0], JoinLines(pieces[1..]));
    }
  }

  /** Different lines make different texts. */
  lemma JoinIsInjective(p: seq<string>, q: seq<string>)
    requires Bare(p) && Bare(q) && p != [] && q != []
    ensures JoinLines(p) == JoinLines(q) <==> p == q
  {
    JoinedIsSplit(p);
    JoinedIsSplit(q);
  }

  // ---------------------------------------------------------------------------------------------
  // One event

  lemma FieldLine(field: string, val: string)
    requires ':' !in field && field != ""
    ensures Field(field + ": " + val) == (field, val)
  {
    var line := field + ": " + val;
    assert forall j | 0 <= j < |field| :: line[j] == field[j];
    IndexIs(line, ':', 0, |field|);
    assert line[..|field|] == field && line[|field| + 1..] == [' '] + val;
  }

  lemma {:induction false} TakeData(r: Reading, pieces: seq<string>)
    ensures TakeAll(r, DataLines(pieces)) == r.(data := r.data + pieces)
    decreases |pieces|
  {
    if pieces == [] {
      assert r.data + pieces == r.data;
    } else {
      FieldLine("data", pieces[0]);
      assert DataLines(pieces)[0] == "data" + ": " + pieces[0];
      TakeData(r.(data := r.data + [pieces[0]]), pieces[1..]);
      assert DataLines(pieces)[1..] == DataLines(pieces[1..]);
      assert r.data + [pieces[0]] + pieces[1..] == r.data + pieces;
    }
  }

  lemma {:induction false} TakeAppend(r: Reading, a: seq<string>, b: seq<string>)
    ensures TakeAll(r, a + b) == TakeAll(TakeAll(r, a), b)
    decreases |a|
  {
    if a == [] {
      assert a + b == b;
    } else {
      TakeAppend(Take(r, a[0]), a[1..], b);
      assert (a + b)[1..] == a[1..] + b;
    }
  }

  /** The event that lines with this name and data announce. */
  function Announced(name: string, pieces: seq<string>): SseEvent {
    SseEvent(if name == "" then "message" else name, JoinLines(pieces))
  }

  lemma TakeEvent(name: string, pieces: seq<string>, out: seq<SseEvent>)
    requires pieces != []
    ensures TakeAll(Reading("", [], out), EventLines(name, pieces)) == Reading("", [], out + [Announced(name, pieces)])
  {
    var r := Reading("", [], out);
    var head := "event: " + name;
    FieldLine("event", name);
    assert head == "event" + ": " + name;
    assert TakeAll(Reading(name, [], out), []) == Reading(name, [], out);
    assert TakeAll(r, [head]) == Reading(name, [], out);
    TakeAppend(r, [head], DataLines(pieces));
    TakeData(Reading(name, [], out), pieces);
    assert [] + pieces == pieces;
    var filled := Reading(name, pieces, out);
    TakeAppend(r, [head] + DataLines(pieces), [""]);
    assert TakeAll(Dispatch(filled), []) == Dispatch(filled);
  }

  // ---------------------------------------------------------------------------------------------
  // What carriage returns do to it

  /** The line ends of the name line and of the data lines of an event. */
  function NameAsRead(name: string, crlf: bool): string { if crlf then name else Chop(name) }

  lemma ChopBehind(front: string, s: string)
    requires front != "" && front[|front| - 1] != '\r'
    ensures Chop(front + s) == front + Chop(s)
  {
  }

  lemma EventLinesAsRead(name: string, pieces: seq<string>, crlf: seq<bool>)
    requires |crlf| == |pieces| + 2
    ensures AsRead(EventLines(name, pieces), crlf)
         == EventLines(NameAsRead(name, crlf[0]), AsRead(pieces, crlf[1..|crlf| - 1]))
  {
    var lines, heard := EventLines(name, pieces), AsRead(pieces, crlf[1..|crlf| - 1]);
    var r, e := AsRead(lines, crlf), EventLines(NameAsRead(name, crlf[0]), heard);
    forall k | 0 <= k < |lines|
      ensures r[k] == e[k]
    {
      if k == 0 {
        ChopBehind("event: ", name);
      } else if k <= |pieces| {
        assert lines[k] == "data: " + pieces[k - 1] && e[k] == "data: " + heard[k - 1];
        assert crlf[1..|crlf| - 1][k - 1] == crlf[k];
        ChopBehind("data: ", pieces[k - 1]);
      }
    }
  }

  /** The event that arrives when `e` is written with these line ends. */
  function Arriving(e: SseEvent, crlf: seq<bool>): SseEvent
    requires |crlf| == |LinesOf(e.data)| + 2
  {
    Announced(NameAsRead(e.name, crlf[0]), AsRead(LinesOf(e.data), crlf[1..|crlf| - 1]))
  }

  lemma AsReadIsBare(pieces: seq<string>, crlf: seq<bool>)
    requires |crlf| == |pieces| && Bare(pieces)
    ensures Bare(AsRead(pieces, crlf))
  {
  }

  ghost predicate Plain(e: SseEvent) { e.name != "" && '\n' !in e.name }

  /** An event arrives as it was sent if and only if its lines do. */
  lemma ArrivesIffLinesDo(e: SseEvent, crlf: seq<bool>)
    requires Plain(e) && |crlf| == |LinesOf(e.data)| + 2
    ensures Arriving(e, crlf) == e
       <==> AsRead(EventLines(e.name, LinesOf(e.data)), crlf) == EventLines(e.name, LinesOf(e.data))
  {
    var pieces := LinesOf(e.data);
    var heard := AsRead(pieces, crlf[1..|crlf| - 1]);
    LinesAreJoined(e.data);
    AsReadIsBare(pieces, crlf[1..|crlf| - 1]);
    JoinIsInjective(heard, pieces);
    EventLinesAsRead(e.name, pieces, crlf);
    EventLinesDiffer(NameAsRead(e.name, crlf[0]), heard, e.name, pieces);
    if NameAsRead(e.name, crlf[0]) == "" {
      assert e.name == "\r";
    }
  }

  lemma EventLinesDiffer(a: string, p: seq<string>, b: string, q: seq<string>)
    requires |p| == |q|
    ensures EventLines(a, p) == EventLines(b, q) <==> a == b && p == q
  {
    var x, y := EventLines(a, p), EventLines(b, q);
    assert x[0][7..] == a && y[0][7..] == b;
    forall k | 0 <= k < |p|
      ensures x[k + 1][6..] == p[k] && y[k + 1][6..] == q[k]
    {
    }
    if x == y {
      assert forall k | 0 <= k < |p| :: p[k] == x[k + 1][6..] == y[k + 1][6..] == q[k];
    }
  }

  // ---------------------------------------------------------------------------------------------
  // All events

  /** What arrives of a list of events. */
  function AllArriving(events: seq<SseEvent>, crlf: seq<bool>): (r: seq<SseEvent>)
    requires |crlf| == |AllLines(events)|
    ensures |r| == |events|
  {
    if events == [] then []
    else
      var n := |LinesOf(events[0].data)| + 2;
      [Arriving(events[0], crlf[..n])] + AllArriving(events[1..], crlf[n..])
  }

  lemma AsReadApart(a: seq<string>, b: seq<string>, crlf: seq<bool>)
    requires |crlf| == |a| + |b|
    ensures AsRead(a + b, crlf) == AsRead(a, crlf[..|a|]) + AsRead(b, crlf[|a|..])
  {
    var r, s := AsRead(a + b, crlf), AsRead(a, crlf[..|a|]) + AsRead(b, crlf[|a|..]);
    forall k | 0 <= k < |r|
      ensures r[k] == s[k]
    {
      if k >= |a| {
        assert crlf[|a|..][k - |a|] == crlf[k];
      }
    }
  }

  lemma TakeArriving(e: SseEvent, crlf: seq<bool>, out: seq<SseEvent>)
    requires |crlf| == |LinesOf(e.data)| + 2
    ensures TakeAll(Reading("", [], out), AsRead(EventLines(e.name, LinesOf(e.data)), crlf))
         == Reading("", [], out + [Arriving(e, crlf)])
  {
    EventLinesAsRead(e.name, LinesOf(e.data), crlf);
    TakeEvent(NameAsRead(e.name, crlf[0]), AsRead(LinesOf(e.data), crlf[1..|crlf| - 1]), out);
  }

  lemma {:induction false} TakeAllEvents(events: seq<SseEvent>, crlf: seq<bool>, out: seq<SseEvent>)
    requires |crlf| == |AllLines(events)|
    ensures TakeAll(Reading("", [], out), AsRead(AllLines(events), crlf))
         == Reading("", [], out + AllArriving(events, crlf))
    decreases |events|
  {
    if events == [] {
      assert out + [] == out;
    } else {
      var e, n := events[0], |LinesOf(events[0].data)| + 2;
      var lines, later := EventLines(e.name, LinesOf(e.data)), AllLines(events[1..]);
      AsReadApart(lines, later, crlf);
      TakeAppend(Reading("", [], out), AsRead(lines, crlf[..n]), AsRead(later, crlf[n..]));
      TakeArriving(e, crlf[..n], out);
      TakeAllEvents(events[1..], crlf[n..], out + [Arriving(e, crlf[..n])]);
      MoveOne(out, Arriving(e, crlf[..n]), AllArriving(events[1..], crlf[n..]));
    }
  }

  lemma {:induction false} AllArriveIffLinesDo(events: seq<SseEvent>, crlf: seq<bool>)
    requires |crlf| == |AllLines(events)| && forall k | 0 <= k < |events| :: Plain(events[k])
    ensures AllArriving(events, crlf) == events <==> AsRead(AllLines(events), crlf) == AllLines(events)
  {
    if events != [] {
      var e, n := events[0], |LinesOf(events[0].data)| + 2;
      var lines, later := EventLines(e.name, LinesOf(e.data)), AllLines(events[1..]);
      ArrivesIffLinesDo(e, crlf[..n]);
      AllArriveIffLinesDo(events[1..], crlf[n..]);
      AsReadApart(lines, later, crlf);
      SameHead(Arriving(e, crlf[..n]), AllArriving(events[1..], crlf[n..]), events);
      SamePair(AsRead(lines, crlf[..n]), AsRead(later, crlf[n..]), lines, later);
    }
  }

  lemma SameHead<T>(x: T, rest: seq<T>, s: seq<T>)
    requires s != []
    ensures [x] + rest == s <==> x == s[0] && rest == s[1..]
  {
    var t := [x] + rest;
    assert t[0] == x && t[1..] == rest && s == [s[0]] + s[1..];
  }

  lemma SamePair<T>(a: seq<T>, b: seq<T>, c: seq<T>, d: seq<T>)
    requires |a| == |c|
    ensures a + b == c + d <==> a == c && b == d
  {
    if a + b == c + d {
      assert a == (a + b)[..|a|] && c == (c + d)[..|c|] && b == (a + b)[|a|..] && d == (c + d)[|c|..];
    }
  }

  lemma {:induction false} AllLinesAreBare(events: seq<SseEvent>)
    requires forall k | 0 <= k < |events| :: Plain(events[k])
    ensures Bare(AllLines(events))
  {
    if events != [] {
      AllLinesAreBare(events[1..]);
      LinesAreJoined(events[0].data);
    }
  }

  /** Events written with any mix of LF and CRLF, and cut into any chunks, are the events received if
      and only if no line ends in a carriage return before a bare LF. */
  lemma SseRoundTrip(events: seq<SseEvent>, crlf: seq<bool>)
    requires |crlf| == |AllLines(events)| && forall k | 0 <= k < |events| :: Plain(events[k])
    ensures Received(Written(AllLines(events), crlf)) == events <==> Intact(AllLines(events), crlf)
  {
    AllLinesAreBare(events);
    WrittenAsRead(AllLines(events), crlf);
    WrittenIsRead(AllLines(events), crlf);
    TakeAllEvents(events, crlf, []);
    AllArriveIffLinesDo(events, crlf);
    assert [] + AllArriving(events, crlf) == AllArriving(events, crlf);
  }

  lemma IntactApart(a: seq<string>, b: seq<string>, crlf: seq<bool>)
    requires |crlf| == |a| + |b| && Intact(a, crlf[..|a|]) && Intact(b, crlf[|a|..])
    ensures Intact(a + b, crlf)
  {
    forall k | 0 <= k < |a + b| && !crlf[k] && (a + b)[k] != ""
      ensures (a + b)[k][|(a + b)[k]| - 1] != '\r'
    {
      if k < |a| {
        assert crlf[..|a|][k] == crlf[k] && (a + b)[k] == a[k];
      } else {
        assert crlf[|a|..][k - |a|] == crlf[k] && (a + b)[k] == b[k - |a|];
      }
    }
  }

  /** In particular they are when no name and no data holds a carriage return. */
  lemma {:induction false} WithoutCarriageReturns(events: seq<SseEvent>, crlf: seq<bool>)
    requires |crlf| == |AllLines(events)|
    requires forall k | 0 <= k < |events| :: '\r' !in events[k].name && '\r' !in events[k].data
    ensures Intact(AllLines(events), crlf)
  {
    if events != [] {
      var e, n := events[0], |LinesOf(events[0].data)| + 2;
      PiecesOf(e.data, '\r');
      WithoutCarriageReturns(events[1..], crlf[n..]);
      IntactApart(EventLines(e.name, LinesOf(e.data)), AllLines(events[1..]), crlf);
    }
  }

  lemma {:induction false} PiecesOf(text: string, c: char)
    requires c !in text
    ensures forall k | 0 <= k < |LinesOf(text)| :: c !in LinesOf(text)[k]
    decreases |text|
  {
    match IndexOf(text, '\n', 0)
    case None =>
    case Some(k) =>
      PiecesOf(text[k + 1..], c);
      assert LinesOf(text) == [text[..k]] + LinesOf(text[k + 1..]);
  }

  // ---------------------------------------------------------------------------------------------
  // The end of the stream

  /** The lines of an event that no empty line completes. */
  function OpenLines(name: string, pieces: seq<string>): (r: seq<string>)
    ensures |r| == |pieces| + 1
  {
    ["event: " + name] + DataLines(pieces)
  }

  /** What the standard delivers: an event that no empty line completes is discarded. */
  function Strict(text: string): seq<SseEvent> { TakeAll(Reading("", [], []), Chopped(Split(text).0)).out }

  predicate IsDataLine(line: string) { line != "" && line[0] != ':' && Field(line).0 == "data" }

  /** Every data line from `lines` on is followed by an empty line. */
  ghost predicate Completed(lines: seq<string>) {
    forall k | 0 <= k < |lines| && IsDataLine(lines[k]) :: "" in lines[k + 1..]
  }

  lemma {:induction false} NothingPending(r: Reading, lines: seq<string>)
    ensures TakeAll(r, lines).data == [] <==> Completed(lines) && (r.data == [] || "" in lines)
    decreases |lines|
  {
    if lines != [] {
      NothingPending(Take(r, lines[0]), lines[1..]);
      assert forall x :: x in lines <==> x == lines[0] || x in lines[1..];
      forall k | 0 <= k < |lines| - 1
        ensures lines[1..][k] == lines[k + 1] && lines[1..][k + 1..] == lines[k + 2..]
      {
      }
      assert Completed(lines) <==> Completed(lines[1..]) && (IsDataLine(lines[0]) ==> "" in lines[1..]) by {
        if Completed(lines[1..]) && (IsDataLine(lines[0]) ==> "" in lines[1..]) {
          forall k | 0 <= k < |lines| && IsDataLine(lines[k])
            ensures "" in lines[k + 1..]
          {
            assert k > 0 ==> lines[k] == lines[1..][k - 1];
          }
        }
        if Completed(lines) {
          forall k | 0 <= k < |lines| - 1 && IsDataLine(lines[1..][k])
            ensures "" in lines[1..][k + 1..]
          {
          }
        }
      }
    }
  }

  /** The reader agrees with the standard if and only if no data line is left behind the last empty line. */
  lemma StrictIffCompleted(text: string)
    ensures Received(text) == Strict(text) <==> Completed(Chopped(Split(text).0))
  {
    var lines := Chopped(Split(text).0);
    var r := TakeAll(Reading("", [], []), lines);
    NothingPending(Reading("", [], []), lines);
    if r.data != [] {
      assert |Received(text)| == |r.out| + 1;
    }
  }

  /** A last event without its empty line is delivered when the stream ends; the standard drops it. */
  lemma UnfinishedEventIsDelivered(events: seq<SseEvent>, name: string, pieces: seq<string>, crlf: seq<bool>)
    requires pieces != [] && Bare(pieces) && '\n' !in name && forall k | 0 <= k < |events| :: Plain(events[k])
    requires |crlf| == |AllLines(events)| + 1 + |pieces|
    requires Intact(AllLines(events) + OpenLines(name, pieces), crlf)
    ensures Received(Written(AllLines(events) + OpenLines(name, pieces), crlf)) == events + [Announced(name, pieces)]
    ensures Strict(Written(AllLines(events) + OpenLines(name, pieces), crlf)) == events
  {
    var front, last := AllLines(events), OpenLines(name, pieces);
    LinesWithoutLineFeed(events, name, pieces);
    WrittenIsRead(front + last, crlf);
    AllEventsAreTaken(events);
    TakeAppend(Reading("", [], []), front, last);
    EndOfStreamDispatches(events, name, pieces);
    OnlyEventLines(events, name, pieces);
  }

  lemma LinesWithoutLineFeed(events: seq<SseEvent>, name: string, pieces: seq<string>)
    requires Bare(pieces) && '\n' !in name && forall k | 0 <= k < |events| :: Plain(events[k])
    ensures Bare(AllLines(events) + OpenLines(name, pieces))
  {
    AllLinesAreBare(events);
    OpenLinesAreBare(name, pieces);
    BareAppend(AllLines(events), OpenLines(name, pieces));
  }

  lemma OpenLinesAreBare(name: string, pieces: seq<string>)
    requires Bare(pieces) && '\n' !in name
    ensures Bare(OpenLines(name, pieces))
  {
    forall k | 0 <= k < |OpenLines(name, pieces)|
      ensures '\n' !in OpenLines(name, pieces)[k]
    {
      if k == 0 {
        BareBehind("event: ", name);
      } else {
        BareBehind("data: ", pieces[k - 1]);
      }
    }
  }

  lemma BareBehind(front: string, s: string)
    requires '\n' !in front && '\n' !in s
    ensures '\n' !in front + s
  {
  }

  lemma BareAppend(a: seq<string>, b: seq<string>)
    requires Bare(a) && Bare(b)
    ensures Bare(a + b)
  {
  }

  lemma OnlyEventLines(events: seq<SseEvent>, name: string, pieces: seq<string>)
    ensures TakeAll(Reading("", [], events), OpenLines(name, pieces)).out == events
  {
    var head := "event: " + name;
    FieldLine("event", name);
    assert head == "event" + ": " + name;
    assert TakeAll(Reading(name, [], events), []) == Reading(name, [], events);
    assert TakeAll(Reading("", [], events), [head]) == Reading(name, [], events);
    TakeAppend(Reading("", [], events), [head], DataLines(pieces));
    TakeData(Reading(name, [], events), pieces);
  }

  lemma AllEventsAreTaken(events: seq<SseEvent>)
    requires forall k | 0 <= k < |events| :: Plain(events[k])
    ensures TakeAll(Reading("", [], []), AllLines(events)) == Reading("", [], events)
  {
    var crlf := seq(|AllLines(events)|, i => true);
    TakeAllEvents(events, crlf, []);
    assert AsRead(AllLines(events), crlf) == AllLines(events);
    AllArriveIffLinesDo(events, crlf);
    assert [] + AllArriving(events, crlf) == events;
  }

  /** A last event without its empty line is delivered all the same, when the stream ends. */
  lemma EndOfStreamDispatches(events: seq<SseEvent>, name: string, pieces: seq<string>)
    requires pieces != []
    ensures Dispatch(TakeAll(Reading("", [], events), OpenLines(name, pieces))).out
         == events + [Announced(name, pieces)]
  {
    var lines := OpenLines(name, pieces);
    TakeEvent(name, pieces, events);
    TakeAppend(Reading("", [], events), lines, [""]);
    var r := TakeAll(Reading("", [], events), lines);
    assert TakeAll(Dispatch(r), []) == Dispatch(r);
  }
}
