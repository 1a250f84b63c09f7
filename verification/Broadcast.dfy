/** The events of a running agent, replayed to late subscribers and broadcast to all, and the messages that
    travel the other way. */
module Broadcast {
  import opened Options
  import opened Sequences

  /** What a subscriber reads: a line, or the marker that ends the replay. */
  datatype Item = Line(text: string) | ReplayDone

  /** Open: written to. Failed: broken, not noticed yet or dropped since. Cancelled by the client. Closed at
      the end of the run. */
  datatype Link = Open | Failed | Cancelled | Closed

  datatype Stream = Stream(received: seq<Item>, link: Link)

  function AsLines(events: seq<string>): (r: seq<Item>)
    ensures |r| == |events|
    ensures forall k | 0 <= k < |r| :: r[k] == Line(events[k])
  {
    seq(|events|, k requires 0 <= k < |events| => Line(events[k]))
  }

  /** What a subscriber that joined after `k` of these events has received. */
  function View(events: seq<string>, k: nat): seq<Item>
    requires k <= |events|
  {
    AsLines(events[..k]) + [ReplayDone] + AsLines(events[k..])
  }

  lemma ViewGrows(events: seq<string>, k: nat, line: string)
    requires k <= |events|
    ensures View(events + [line], k) == View(events, k) + [Line(line)]
  {
    assert (events + [line])[..k] == events[..k];
    assert (events + [line])[k..] == events[k..] + [line];
    assert AsLines(events[k..] + [line]) == AsLines(events[k..]) + [Line(line)];
  }

  function WithoutMarkers(items: seq<Item>): seq<string> {
    if items == [] then []
    else if items[0].ReplayDone? then WithoutMarkers(items[1..])
    else [items[0].text] + WithoutMarkers(items[1..])
  }

  lemma FirstLine(events: seq<string>, more: seq<Item>)
    requires events != []
    ensures (AsLines(events) + more)[0] == Line(events[0]) && (AsLines(events) + more)[1..] == AsLines(events[1..]) + more
    ensures events == [events[0]] + events[1..]
  {
  }

  lemma {:induction false} LinesWithoutMarkers(events: seq<string>, more: seq<Item>)
    ensures WithoutMarkers(AsLines(events) + more) == events + WithoutMarkers(more)
  {
    if events == [] {
      assert AsLines(events) + more == more && events + WithoutMarkers(more) == WithoutMarkers(more);
    } else {
      LinesWithoutMarkers(events[1..], more);
      FirstLine(events, more);
      Associate([events[0]], events[1..], WithoutMarkers(more));
    }
  }

  /** A view holds the whole log, in order, and its one marker tells where the replay ended. */
  lemma ViewHoldsTheLog(events: seq<string>, k: nat)
    requires k <= |events|
    ensures WithoutMarkers(View(events, k)) == events
    ensures forall j | 0 <= j < |View(events, k)| :: View(events, k)[j] == ReplayDone <==> j == k
  {
    var tail := [ReplayDone] + AsLines(events[k..]);
    assert View(events, k) == AsLines(events[..k]) + tail;
    LinesWithoutMarkers(events[..k], tail);
    assert tail[1..] == AsLines(events[k..]) + [];
    LinesWithoutMarkers(events[k..], []);
    assert events[..k] + (events[k..] + []) == events;
  }

  ghost predicate NoDuplicates(s: seq<nat>) { forall i, j | 0 <= i < j < |s| :: s[i] != s[j] }

  /** Answers that were given stand. */
  ghost predicate Stand(before: seq<Option<string>>, after: seq<Option<string>>) {
    |before| <= |after| && forall q | 0 <= q < |before| && before[q].Some? :: after[q] == before[q]
  }

  class RunningAgent {
    const project: string
    var events: seq<string>
    /** Every stream handed out for this agent; `controllers` are the ones written to. */
    var streams: seq<Stream>
    var controllers: seq<nat>
    var queuedMessages: seq<string>
    /** Questions asked so far with their answers, the one shown to the user, and those a cancellation settles. */
    var answers: seq<Option<string>>
    var pendingInput: Option<nat>
    var callbacks: seq<nat>
    var cancelled: bool
    /** Events at the time each stream was opened, and at the end of the run. */
    ghost var joined: seq<nat>
    ghost var endedAt: Option<nat>
    /** All messages the user queued, and those the loop has taken. */
    ghost var sent: seq<string>
    ghost var taken: seq<string>

    ghost predicate StreamsOk()
      reads this
    {
      && |joined| == |streams| && NoDuplicates(controllers)
      && (forall c :: c in controllers ==> c < |streams|)
      && (forall c | 0 <= c < |streams| :: joined[c] <= |events|)
      && (forall c | 0 <= c < |streams| :: streams[c].link == Open ==> c in controllers)
      && (forall c | 0 <= c < |streams| :: streams[c].link == Open ==> streams[c].received == View(events, joined[c]))
      && (forall c | 0 <= c < |streams| :: streams[c].received <= View(events, joined[c]))
    }

    /** A stream that the end of the run closed holds all events up to it. */
    ghost predicate EndOk()
      reads this
    {
      match endedAt
      case None => forall c | 0 <= c < |streams| :: streams[c].link != Closed
      case Some(n) =>
        && n <= |events| && controllers == []
        && forall c | 0 <= c < |streams| && streams[c].link == Closed ::
             c < |joined| && joined[c] <= n && streams[c].received == View(events[..n], joined[c])
    }

    ghost predicate QuestionsOk()
      reads this
    {
      && (pendingInput.Some? ==> pendingInput.value < |answers| && answers[pendingInput.value] == None)
      && (forall q :: q in callbacks ==> q < |answers|)
      && (!cancelled ==> forall q | 0 <= q < |answers| :: answers[q] == None ==> q in callbacks)
    }

    ghost predicate Valid()
      reads this
    {
      StreamsOk() && EndOk() && QuestionsOk() && sent == taken + queuedMessages
    }

    /** The message that starts the turn is the first event. */
    constructor (project: string, first: Option<string>)
      ensures Valid() && this.project == project && endedAt == None
      ensures events == (if first.Some? then [first.value] else []) && streams == [] && controllers == []
      ensures answers == [] && sent == [] && taken == []
    {
      this.project := project;
      events := if first.Some? then [first.value] else [];
      streams, controllers, joined, endedAt := [], [], [], None;
      queuedMessages, sent, taken := [], [], [];
      answers, pendingInput, callbacks, cancelled := [], None, [], false;
    }

    /** Replays the events so far, and the marker; what comes later is live. */
    method Subscribe() returns (id: nat)
      requires Valid() && endedAt == None
      modifies this`streams, this`controllers, this`joined
      ensures Valid()
      ensures id == |old(streams)| && streams == old(streams) + [Stream(View(events, |events|), Open)]
      ensures joined == old(joined) + [|events|] && controllers == old(controllers) + [id]
    {
      id := |streams|;
      var received := [];
      for i := 0 to |events|
        invariant received == AsLines(events[..i])
      {
        received := received + [Line(events[i])];
      }
      received := received + [ReplayDone];
      assert events[..|events|] == events && received == View(events, |events|);
      assert id !in controllers;
      streams := streams + [Stream(received, Open)];
      controllers := controllers + [id];
      joined := joined + [|events|];
    }

    /** Adds the event to the log and writes it to every stream that still takes it; broken ones are dropped. */
    method Emit(line: string)
      requires Valid()
      modifies this`events, this`streams, this`controllers
      ensures Valid()
      ensures events == old(events) + [line] && |streams| == |old(streams)|
      ensures forall c | 0 <= c < |streams| ::
                streams[c] == if old(streams)[c].link == Open then Stream(old(streams)[c].received + [Line(line)], Open) else old(streams)[c]
      ensures forall c | 0 <= c < |streams| :: c in controllers <==> streams[c].link == Open
    {
      events := events + [line];
      Enqueue(Line(line));
      EmitKeeps(old(events), line, old(streams), streams, joined);
      if endedAt.Some? {
        assert events[..endedAt.value] == old(events)[..endedAt.value];
      }
    }

    /** Writes to each controller; one that refuses is removed. */
    method Enqueue(item: Item)
      requires NoDuplicates(controllers) && forall c :: c in controllers ==> c < |streams|
      modifies this`streams, this`controllers
      ensures |streams| == |old(streams)| && NoDuplicates(controllers) && |controllers| <= |old(controllers)|
      ensures forall c | 0 <= c < |streams| ::
                streams[c] == if c in controllers then Stream(old(streams)[c].received + [item], Open) else old(streams)[c]
      ensures forall c :: c in controllers <==> c in old(controllers) && old(streams)[c].link == Open
    {
      var kept: seq<nat> := [];
      for i := 0 to |controllers|
        invariant |streams| == |old(streams)| && controllers == old(controllers)
        invariant NoDuplicates(kept) && |kept| <= i
        invariant forall c :: c in kept <==> c in controllers[..i] && c < |streams| && old(streams)[c].link == Open
        invariant forall c | 0 <= c < |streams| ::
                    streams[c] == if c in kept then Stream(old(streams)[c].received + [item], Open) else old(streams)[c]
      {
        var c := controllers[i];
        assert c in controllers && c !in controllers[..i];
        assert controllers[..i + 1] == controllers[..i] + [c];
        if streams[c].link == Open {
          streams := streams[c := Stream(streams[c].received + [item], Open)];
          kept := kept + [c];
        }
      }
      assert controllers[..|controllers|] == controllers;
      controllers := kept;
    }

    /** The client goes away; the run goes on. */
    method CancelStream(id: nat)
      requires Valid() && id < |streams|
      modifies this`streams, this`controllers
      ensures Valid()
      ensures |streams| == |old(streams)|
      ensures forall c | 0 <= c < |streams| && c != id :: streams[c] == old(streams)[c]
      ensures streams[id].received == old(streams)[id].received && streams[id].link != Open
    {
      if streams[id].link == Open {
        streams := streams[id := streams[id].(link := Cancelled)];
      }
      controllers := Without(controllers, id);
    }

    /** The connection breaks without notice. */
    method BreakStream(id: nat)
      requires Valid() && id < |streams|
      modifies this`streams
      ensures Valid()
      ensures streams[..] == if old(streams)[id].link == Open then old(streams)[id := old(streams)[id].(link := Failed)] else old(streams)
    {
      if streams[id].link == Open {
        streams := streams[id := streams[id].(link := Failed)];
      }
    }

    /** The run is over: every stream still open is closed. */
    method End()
      requires Valid() && endedAt == None
      modifies this`streams, this`controllers, this`endedAt
      ensures Valid() && endedAt == Some(|events|) && |streams| == |old(streams)|
      ensures forall c | 0 <= c < |streams| ::
                streams[c] == if old(streams)[c].link == Open then old(streams)[c].(link := Closed) else old(streams)[c]
    {
      for i := 0 to |controllers|
        invariant |streams| == |old(streams)| && controllers == old(controllers)
        invariant forall c | 0 <= c < |streams| ::
                    streams[c] == if c in controllers[..i] && old(streams)[c].link == Open then old(streams)[c].(link := Closed) else old(streams)[c]
      {
        var c := controllers[i];
        assert c in controllers;
        assert controllers[..i + 1] == controllers[..i] + [c];
        if streams[c].link == Open {
          streams := streams[c := streams[c].(link := Closed)];
        }
      }
      assert controllers[..|controllers|] == controllers;
      controllers := [];
      endedAt := Some(|events|);
      assert events[..|events|] == events;
    }

    // -------------------------------------------------------------------------------------------
    // From the user to the loop

    method QueueMessage(content: string)
      requires Valid()
      modifies this`queuedMessages, this`sent
      ensures Valid() && sent == old(sent) + [content]
    {
      queuedMessages := queuedMessages + [content];
      sent := sent + [content];
    }

    /** Takes what is queued: in the order sent, and nothing twice, since `taken` only ever grows as a prefix
        of `sent`. */
    method DrainQueuedMessages() returns (messages: seq<string>)
      requires Valid()
      modifies this`queuedMessages, this`taken
      ensures Valid() && taken == old(taken) + messages == sent
    {
      messages := queuedMessages;
      queuedMessages := [];
      taken := taken + messages;
    }

    method WaitForUserInput() returns (q: nat)
      requires Valid()
      modifies this`answers, this`callbacks, this`pendingInput
      ensures Valid() && q == |old(answers)| && answers == old(answers) + [None] && pendingInput == Some(q)
    {
      q := |answers|;
      answers := answers + [None];
      callbacks := callbacks + [q];
      pendingInput := Some(q);
    }

    /** An answer counts only if it is the first. */
    method Settle(q: nat, answer: string)
      requires QuestionsOk() && q < |answers|
      modifies this`answers, this`callbacks, this`pendingInput
      ensures QuestionsOk() && Stand(old(answers), answers)
      ensures answers == if old(answers)[q] == None then old(answers)[q := Some(answer)] else old(answers)
      ensures pendingInput == if old(answers)[q] == None then None else old(pendingInput)
      ensures callbacks == if old(answers)[q] == None then Without(old(callbacks), q) else old(callbacks)
    {
      if answers[q].Some? {
        return;
      }
      answers := answers[q := Some(answer)];
      callbacks := Without(callbacks, q);
      pendingInput := None;
    }

    /** Delivers the answer to the question that is waiting, if there is one. */
    method ProvideUserInput(answer: string) returns (ok: bool)
      requires Valid()
      modifies this`answers, this`callbacks, this`pendingInput
      ensures Valid() && Stand(old(answers), answers) && (ok <==> old(pendingInput).Some?)
      ensures answers == if ok then old(answers)[old(pendingInput).value := Some(answer)] else old(answers)
      ensures pendingInput == None
    {
      if pendingInput == None {
        return false;
      }
      var q := pendingInput.value;
      pendingInput := None;
      Settle(q, answer);
      ok := true;
    }

    method SettleAll(open: seq<nat>, answer: string)
      requires QuestionsOk() && cancelled && forall q :: q in open ==> q < |answers|
      modifies this`answers, this`callbacks, this`pendingInput
      ensures QuestionsOk() && |answers| == |old(answers)|
      ensures forall q | 0 <= q < |answers| ::
                answers[q] == if old(answers)[q] == None && q in open then Some(answer) else old(answers)[q]
    {
      for i := 0 to |open|
        invariant QuestionsOk() && |answers| == |old(answers)|
        invariant forall q | 0 <= q < |answers| ::
                    answers[q] == if old(answers)[q] == None && q in open[..i] then Some(answer) else old(answers)[q]
      {
        assert open[..i + 1] == open[..i] + [open[i]];
        assert open[i] in open;
        Settle(open[i], answer);
      }
      assert open[..|open|] == open;
    }

    /** The first cancellation answers every question that is still open. */
    method Cancel()
      requires Valid()
      modifies this`answers, this`callbacks, this`pendingInput, this`cancelled
      ensures Valid() && cancelled && Stand(old(answers), answers) && |answers| == |old(answers)|
      ensures old(cancelled) ==> answers == old(answers)
      ensures !old(cancelled) ==> forall q | 0 <= q < |answers| && old(answers)[q] == None :: answers[q] == Some("[cancelled]")
    {
      if cancelled {
        return;
      }
      cancelled := true;
      SettleAll(callbacks, "[cancelled]");
      callbacks := [];
    }
  }

  function Without(s: seq<nat>, x: nat): (r: seq<nat>)
    ensures forall y :: y in r <==> y in s && y != x
    ensures |r| <= |s| && (NoDuplicates(s) ==> NoDuplicates(r))
  {
    if s == [] then []
    else if s[0] == x then
      assert NoDuplicates(s) ==> NoDuplicates(s[1..]);
      Without(s[1..], x)
    else
      assert NoDuplicates(s) ==> NoDuplicates(s[1..]) && s[0] !in s[1..];
      [s[0]] + Without(s[1..], x)
  }

  /** Streams that got the event have seen it behind all the others; for the rest the log has only grown. */
  lemma EmitKeeps(events: seq<string>, line: string, before: seq<Stream>, after: seq<Stream>, joined: seq<nat>)
    requires |before| == |after| == |joined|
    requires forall c | 0 <= c < |before| :: joined[c] <= |events| && before[c].received <= View(events, joined[c])
    requires forall c | 0 <= c < |before| :: before[c].link == Open ==> before[c].received == View(events, joined[c])
    requires forall c | 0 <= c < |before| ::
               after[c] == if before[c].link == Open then Stream(before[c].received + [Line(line)], Open) else before[c]
    ensures forall c | 0 <= c < |after| :: after[c].received <= View(events + [line], joined[c])
    ensures forall c | 0 <= c < |after| :: after[c].link == Open ==> after[c].received == View(events + [line], joined[c])
  {
    forall c | 0 <= c < |after|
      ensures after[c].received <= View(events + [line], joined[c])
      ensures after[c].link == Open ==> after[c].received == View(events + [line], joined[c])
    {
      ViewGrows(events, joined[c], line);
    }
  }
}
