/** The message records that make up a conversation, and the pairing rule providers impose on them:
    an assistant message with tool calls is followed at once by one tool message per call, in call
    order, and tool messages occur nowhere else. */
module Conversation {
  import opened Sequences
  import opened Options

  datatype Role = System | User | Assistant | Tool

  datatype ToolCall = ToolCall(id: string, name: string, arguments: string)

  datatype Part = TextPart(text: string) | ImagePart(url: string)

  datatype Content = NoContent | Text(text: string) | Parts(parts: seq<Part>)

  /** An empty `toolCalls` stands for an absent `tool_calls` field. */
  datatype ContextMessage = ContextMessage(
    role: Role,
    content: Content,
    toolCalls: seq<ToolCall>,
    toolCallId: Option<string>,
    toolName: Option<string>)

  function Plain(role: Role, content: Content): ContextMessage {
    ContextMessage(role, content, [], None, None)
  }

  function ToolMessage(call: ToolCall, content: string): ContextMessage {
    ContextMessage(Tool, Text(content), [], Some(call.id), Some(call.name))
  }

  /** The calls a message obliges the history to answer: only assistant messages make calls. */
  function Calls(m: ContextMessage): seq<ToolCall> {
    if m.role == Assistant then m.toolCalls else []
  }

  predicate AnswersCall(m: ContextMessage, call: ToolCall) {
    m.role == Tool && m.toolCallId == Some(call.id)
  }

  /** The calls still owed an answer after reading `ms`, when `due` were owed before it; None when
      some message breaks the pairing rule. */
  function Owed(ms: seq<ContextMessage>, due: seq<ToolCall>): Option<seq<ToolCall>> {
    if ms == [] then Some(due)
    else if due != [] then
      if AnswersCall(ms[0], due[0]) then Owed(ms[1..], due[1..]) else None
    else
      if ms[0].role == Tool then None else Owed(ms[1..], Calls(ms[0]))
  }

  predicate WellPaired(ms: seq<ContextMessage>) {
    Owed(ms, []) == Some([])
  }

  /** The messages behind position `i` up to the next non-tool message answer exactly `calls`. */
  ghost predicate AnsweredFrom(ms: seq<ContextMessage>, i: nat, calls: seq<ToolCall>) {
    i + |calls| <= |ms| &&
    (forall k | 0 <= k < |calls| :: AnswersCall(ms[i + k], calls[k])) &&
    (i + |calls| < |ms| ==> ms[i + |calls|].role != Tool)
  }

  /** Every run of tool messages answers the calls before it, and the first one those in `due`. */
  ghost predicate RunsAnswered(ms: seq<ContextMessage>, due: seq<ToolCall>) {
    AnsweredFrom(ms, 0, due) &&
    forall i | 0 <= i < |ms| && ms[i].role != Tool :: AnsweredFrom(ms, i + 1, Calls(ms[i]))
  }

  lemma {:induction false} PairedPositions(ms: seq<ContextMessage>, due: seq<ToolCall>)
    ensures Owed(ms, due) == Some([]) <==> RunsAnswered(ms, due)
  {
    if ms != [] {
      var next := if due != [] then due[1..] else Calls(ms[0]);
      PairedPositions(ms[1..], next);
      if RunsAnswered(ms[1..], next) && (if due != [] then AnswersCall(ms[0], due[0]) else ms[0].role != Tool) {
        forall i | 0 <= i < |ms| && ms[i].role != Tool
          ensures AnsweredFrom(ms, i + 1, Calls(ms[i]))
        {
          if i == 0 {
            assert AnsweredFrom(ms[1..], 0, next);
          } else {
            assert ms[i] == ms[1..][i - 1];
            assert AnsweredFrom(ms[1..], i, Calls(ms[i]));
          }
        }
        assert AnsweredFrom(ms[1..], 0, next);
      }
      if RunsAnswered(ms, due) {
        forall i | 0 <= i < |ms[1..]| && ms[1..][i].role != Tool
          ensures AnsweredFrom(ms[1..], i + 1, Calls(ms[1..][i]))
        {
          assert AnsweredFrom(ms, i + 2, Calls(ms[i + 1]));
        }
      }
    }
  }

  ghost predicate ToolWithId(m: ContextMessage, id: string) { m.role == Tool && m.toolCallId == Some(id) }

  /** From position `i` on stand tool messages with the ids of these calls, and then no tool message. */
  ghost predicate AnswersAt(ms: seq<ContextMessage>, i: nat, calls: seq<ToolCall>) {
    && i + |calls| <= |ms|
    && (forall k | 0 <= k < |calls| :: ToolWithId(ms[i + k], calls[k].id))
    && (i + |calls| < |ms| ==> ms[i + |calls|].role != Tool)
  }

  /** The pairing rule read off position by position: behind an assistant message come the answers to its calls, and
      no tool message stands elsewhere. */
  ghost predicate PairedAtEveryPosition(ms: seq<ContextMessage>) {
    && (ms != [] ==> ms[0].role != Tool)
    && forall i | 0 <= i < |ms| && ms[i].role != Tool ::
         AnswersAt(ms, i + 1, if ms[i].role == Assistant then ms[i].toolCalls else [])
  }

  lemma AnsweredIs(ms: seq<ContextMessage>, i: nat, calls: seq<ToolCall>)
    ensures AnswersAt(ms, i, calls) <==> AnsweredFrom(ms, i, calls)
  {
  }

  lemma AnsweredAtEvery(ms: seq<ContextMessage>)
    ensures PairedAtEveryPosition(ms) <==> RunsAnswered(ms, [])
  {
    forall i | 0 <= i < |ms|
      ensures AnsweredFrom(ms, i + 1, Calls(ms[i]))
         <==> AnswersAt(ms, i + 1, if ms[i].role == Assistant then ms[i].toolCalls else [])
    {
      AnsweredIs(ms, i + 1, Calls(ms[i]));
    }
  }

  /** The rule and its positional reading agree. */
  lemma WellPairedAtEveryPosition(ms: seq<ContextMessage>)
    ensures WellPaired(ms) <==> PairedAtEveryPosition(ms)
  {
    PairedPositions(ms, []);
    AnsweredAtEvery(ms);
  }

  lemma {:induction false} OwedAppend(a: seq<ContextMessage>, b: seq<ContextMessage>, due: seq<ToolCall>)
    ensures Owed(a + b, due) == match Owed(a, due) case None => None case Some(d) => Owed(b, d)
  {
    if a == [] {
      assert a + b == b;
    } else {
      assert (a + b)[1..] == a[1..] + b;
      OwedAppend(a[1..], b, if due != [] then due[1..] else Calls(a[0]));
    }
  }

  lemma PairedAppend(a: seq<ContextMessage>, b: seq<ContextMessage>)
    requires WellPaired(a)
    ensures WellPaired(a + b) <==> WellPaired(b)
  {
    OwedAppend(a, b, []);
  }

  /** Where a well-paired history may be cut: exactly where the next message is not a tool message. */
  lemma PairedCut(ms: seq<ContextMessage>, k: nat)
    requires WellPaired(ms) && k <= |ms|
    ensures WellPaired(ms[k..]) <==> (k == |ms| || ms[k].role != Tool)
    ensures WellPaired(ms[..k]) <==> (k == |ms| || ms[k].role != Tool)
  {
    assert ms[..k] + ms[k..] == ms;
    OwedAppend(ms[..k], ms[k..], []);
  }

  /** Two histories that may differ in what their messages say, but not in who calls and answers whom. */
  ghost predicate SameShape(a: seq<ContextMessage>, b: seq<ContextMessage>) {
    |a| == |b| &&
    forall i | 0 <= i < |a| ::
      a[i].role == b[i].role && a[i].toolCalls == b[i].toolCalls && a[i].toolCallId == b[i].toolCallId
  }

  lemma {:induction false} OwedByShape(a: seq<ContextMessage>, b: seq<ContextMessage>, due: seq<ToolCall>)
    requires SameShape(a, b)
    ensures Owed(a, due) == Owed(b, due)
  {
    if a != [] {
      assert SameShape(a[1..], b[1..]);
      OwedByShape(a[1..], b[1..], if due != [] then due[1..] else Calls(a[0]));
    }
  }

  /** Messages that neither call nor answer. */
  predicate Bystander(m: ContextMessage) {
    m.role != Tool && Calls(m) == []
  }

  lemma {:induction false} BystandersArePaired(ms: seq<ContextMessage>)
    requires forall m | m in ms :: Bystander(m)
    ensures WellPaired(ms)
  {
    if ms != [] {
      assert Bystander(ms[0]);
      BystandersArePaired(ms[1..]);
    }
  }

  /** The tool messages answering `calls` with the given texts, in call order. */
  function ToolMessages(calls: seq<ToolCall>, texts: seq<string>): (r: seq<ContextMessage>)
    requires |texts| <= |calls|
    ensures |r| == |texts|
    ensures forall i | 0 <= i < |r| :: r[i] == ToolMessage(calls[i], texts[i])
  {
    seq(|texts|, i requires 0 <= i < |texts| => ToolMessage(calls[i], texts[i]))
  }

  lemma {:induction false} OwedAfterAnswers(tools: seq<ContextMessage>, calls: seq<ToolCall>)
    requires |tools| <= |calls|
    requires forall i | 0 <= i < |tools| :: AnswersCall(tools[i], calls[i])
    ensures Owed(tools, calls) == Some(calls[|tools|..])
  {
    if tools != [] {
      OwedAfterAnswers(tools[1..], calls[1..]);
      assert calls[1..][|tools| - 1..] == calls[|tools|..];
    }
  }

  // ---------------------------------------------------------------------------------------------
  // closeDanglingToolCalls

  const NOT_RUN := "[Not run: the turn ended before this tool call executed]"

  function NotRun(call: ToolCall): ContextMessage {
    ToolMessage(call, NOT_RUN)
  }

  type Ids = set<Option<string>>

  /** Placeholders for the calls whose ids are not among `answered`, in call order. */
  function Missing(calls: seq<ToolCall>, answered: Ids): seq<ContextMessage> {
    if calls == [] then []
    else if Some(calls[0].id) in answered then Missing(calls[1..], answered)
    else [NotRun(calls[0])] + Missing(calls[1..], answered)
  }

  /** What closeDanglingToolCalls makes of `ms` when the assistant message before it made `calls` (none
      if there was no such message), some of which the tool messages since then have `answered`. */
  function Closed(ms: seq<ContextMessage>, calls: seq<ToolCall>, answered: Ids): seq<ContextMessage> {
    if ms == [] then Missing(calls, answered)
    else if calls != [] && ms[0].role == Tool then
      [ms[0]] + Closed(ms[1..], calls, answered + {ms[0].toolCallId})
    else
      Missing(calls, answered) + [ms[0]] + Closed(ms[1..], Calls(ms[0]), {})
  }

  lemma ClosedAt(ms: seq<ContextMessage>, i: nat, calls: seq<ToolCall>, answered: Ids)
    requires i < |ms|
    ensures calls != [] && ms[i].role == Tool ==>
              Closed(ms[i..], calls, answered) == [ms[i]] + Closed(ms[i + 1..], calls, answered + {ms[i].toolCallId})
    ensures Closed(ms[i..], [], {}) == [ms[i]] + Closed(ms[i + 1..], Calls(ms[i]), {})
  {
    assert ms[i..][1..] == ms[i + 1..];
    assert Missing([], {}) + [ms[i]] == [ms[i]];
  }

  lemma MissingAt(calls: seq<ToolCall>, i: nat, answered: Ids)
    requires i < |calls|
    ensures Missing(calls[i..], answered)
         == (if Some(calls[i].id) in answered then [] else [NotRun(calls[i])]) + Missing(calls[i + 1..], answered)
  {
    assert calls[i..][1..] == calls[i + 1..];
  }

  /** One block of the output: an assistant message, the tool messages behind it, the placeholders. */
  lemma BlockClosed(ms: seq<ContextMessage>, i: nat, j: nat, run: seq<ContextMessage>, answered: Ids)
    requires i < j <= |ms| && (j < |ms| ==> ms[j].role != Tool)
    requires Closed(ms[i + 1..], Calls(ms[i]), {}) == run + Closed(ms[j..], Calls(ms[i]), answered)
    ensures Closed(ms[i..], [], {}) == [ms[i]] + run + Missing(Calls(ms[i]), answered) + Closed(ms[j..], [], {})
  {
    ClosedAt(ms, i, [], {});
    ClosedOutsideRun(ms[j..], Calls(ms[i]), answered);
    Regroup([ms[i]], run, Missing(Calls(ms[i]), answered), Closed(ms[j..], [], {}));
  }

  lemma Regroup<T>(a: seq<T>, b: seq<T>, c: seq<T>, d: seq<T>)
    ensures a + (b + (c + d)) == a + b + c + d
  {
    Associate(b, c, d);
    Associate(a, b + c, d);
    Associate(a, b, c);
  }

  method CloseDanglingToolCalls(messages: seq<ContextMessage>) returns (out: seq<ContextMessage>)
    ensures out == Closed(messages, [], {})
  {
    out := [];
    var i := 0;
    while i < |messages|
      invariant 0 <= i <= |messages|
      invariant Closed(messages, [], {}) == out + Closed(messages[i..], [], {})
    {
      var m := messages[i];
      if m.role == Assistant && m.toolCalls != [] {
        var run, answered, j := CopyToolRun(messages, i + 1, m.toolCalls);
        var missing := MissingAnswers(m.toolCalls, answered);
        BlockClosed(messages, i, j, run, answered);
        Associate(out, [m] + run + missing, Closed(messages[j..], [], {}));
        out := out + ([m] + run + missing);
        i := j;
      } else {
        ClosedAt(messages, i, [], {});
        MoveOne(out, m, Closed(messages[i + 1..], [], {}));
        out := out + [m];
        i := i + 1;
      }
    }
  }

  /** The inner scan: the tool messages from `start` on, and the ids they answer. */
  method CopyToolRun(messages: seq<ContextMessage>, start: nat, ghost calls: seq<ToolCall>)
    returns (run: seq<ContextMessage>, answered: Ids, j: nat)
    requires start <= |messages| && calls != []
    ensures start <= j <= |messages| && (j < |messages| ==> messages[j].role != Tool)
    ensures Closed(messages[start..], calls, {}) == run + Closed(messages[j..], calls, answered)
  {
    run, answered, j := [], {}, start;
    assert [] + Closed(messages[start..], calls, {}) == Closed(messages[start..], calls, {});
    while j < |messages| && messages[j].role == Tool
      invariant start <= j <= |messages|
      invariant Closed(messages[start..], calls, {}) == run + Closed(messages[j..], calls, answered)
    {
      ToolIsKept(messages, j, calls, answered, run);
      answered := answered + {messages[j].toolCallId};
      run := run + [messages[j]];
      j := j + 1;
    }
  }

  lemma ToolIsKept(ms: seq<ContextMessage>, j: nat, calls: seq<ToolCall>, answered: Ids, run: seq<ContextMessage>)
    requires j < |ms| && ms[j].role == Tool && calls != []
    ensures run + Closed(ms[j..], calls, answered) == run + [ms[j]] + Closed(ms[j + 1..], calls, answered + {ms[j].toolCallId})
  {
    ClosedAt(ms, j, calls, answered);
    MoveOne(run, ms[j], Closed(ms[j + 1..], calls, answered + {ms[j].toolCallId}));
  }

  method MissingAnswers(calls: seq<ToolCall>, answered: Ids) returns (out: seq<ContextMessage>)
    ensures out == Missing(calls, answered)
  {
    out := [];
    for c := 0 to |calls|
      invariant Missing(calls, answered) == out + Missing(calls[c..], answered)
    {
      MissingAt(calls, c, answered);
      if Some(calls[c].id) !in answered {
        out := out + [NotRun(calls[c])];
      }
    }
  }

  lemma ClosedOutsideRun(ms: seq<ContextMessage>, calls: seq<ToolCall>, answered: Ids)
    requires ms != [] ==> ms[0].role != Tool
    ensures Closed(ms, calls, answered) == Missing(calls, answered) + Closed(ms, [], {})
  {
    if ms != [] {
      var rest := [ms[0]] + Closed(ms[1..], Calls(ms[0]), {});
      assert Missing(calls, answered) + [ms[0]] + Closed(ms[1..], Calls(ms[0]), {}) == Missing(calls, answered) + rest;
      assert Missing([], {}) + [ms[0]] == [ms[0]];
    }
  }

  /** Call `c` of message `i` is answered by one of the tool messages directly behind that message. */
  ghost predicate IsAnswered(ms: seq<ContextMessage>, i: nat, c: ToolCall) {
    exists j | i < j < |ms| :: ms[j].toolCallId == Some(c.id) && forall k | i < k <= j :: ms[k].role == Tool
  }

  ghost predicate AllAnswered(ms: seq<ContextMessage>) {
    forall i, c | 0 <= i < |ms| && ms[i].role == Assistant && c in ms[i].toolCalls :: IsAnswered(ms, i, c)
  }

  /** Nothing is missing from `ms`, read in the state Closed reads it in. */
  ghost predicate Complete(ms: seq<ContextMessage>, calls: seq<ToolCall>, answered: Ids) {
    if ms == [] then Missing(calls, answered) == []
    else if calls != [] && ms[0].role == Tool then
      Complete(ms[1..], calls, answered + {ms[0].toolCallId})
    else
      Missing(calls, answered) == [] && Complete(ms[1..], Calls(ms[0]), {})
  }

  ghost predicate AllIn(calls: seq<ToolCall>, answered: Ids) {
    forall k | 0 <= k < |calls| :: Some(calls[k].id) in answered
  }

  ghost predicate NoneIn(calls: seq<ToolCall>, answered: Ids) {
    forall k | 0 <= k < |calls| :: Some(calls[k].id) !in answered
  }

  lemma {:induction false} MissingNothing(calls: seq<ToolCall>, answered: Ids)
    ensures Missing(calls, answered) == [] <==> AllIn(calls, answered)
  {
    if calls != [] {
      MissingNothing(calls[1..], answered);
    }
  }

  /** The run of tool messages at the front of `ms` contains an answer to `c`. */
  ghost predicate AnsweredAhead(ms: seq<ContextMessage>, c: ToolCall) {
    exists j | 0 <= j < |ms| :: AnswersCall(ms[j], c) && forall k | 0 <= k < j :: ms[k].role == Tool
  }

  lemma AnsweredAheadStep(ms: seq<ContextMessage>, c: ToolCall)
    requires ms != []
    ensures AnsweredAhead(ms, c) <==> ms[0].role == Tool && (AnswersCall(ms[0], c) || AnsweredAhead(ms[1..], c))
  {
    if AnsweredAhead(ms, c) {
      var j :| 0 <= j < |ms| && AnswersCall(ms[j], c) && forall k | 0 <= k < j :: ms[k].role == Tool;
      if j > 0 {
        assert AnswersCall(ms[1..][j - 1], c);
      }
    }
    if ms[0].role == Tool && AnsweredAhead(ms[1..], c) {
      var j :| 0 <= j < |ms[1..]| && AnswersCall(ms[1..][j], c) && forall k | 0 <= k < j :: ms[1..][k].role == Tool;
      assert AnswersCall(ms[j + 1], c);
      assert forall k | 1 <= k < j + 1 :: ms[k] == ms[1..][k - 1];
    }
  }

  lemma IsAnsweredAhead(ms: seq<ContextMessage>, i: nat, c: ToolCall)
    requires i < |ms|
    ensures IsAnswered(ms, i, c) <==> AnsweredAhead(ms[i + 1..], c)
  {
    AnsweredAheadOf(ms, ms[i + 1..], i, c);
    AnsweredAheadBack(ms, ms[i + 1..], i, c);
  }

  lemma AnsweredAheadOf(ms: seq<ContextMessage>, s: seq<ContextMessage>, i: nat, c: ToolCall)
    requires i < |ms| && s == ms[i + 1..]
    ensures IsAnswered(ms, i, c) ==> AnsweredAhead(s, c)
  {
    if IsAnswered(ms, i, c) {
      var j :| i < j < |ms| && ms[j].toolCallId == Some(c.id) && forall k | i < k <= j :: ms[k].role == Tool;
      assert AnswersCall(s[j - i - 1], c);
    }
  }

  lemma AnsweredAheadBack(ms: seq<ContextMessage>, s: seq<ContextMessage>, i: nat, c: ToolCall)
    requires i < |ms| && s == ms[i + 1..]
    ensures AnsweredAhead(s, c) ==> IsAnswered(ms, i, c)
  {
    if AnsweredAhead(s, c) {
      var j :| 0 <= j < |s| && AnswersCall(s[j], c) && forall k | 0 <= k < j :: s[k].role == Tool;
      assert ms[j + i + 1] == s[j];
      assert forall k | i < k < j + i + 1 :: ms[k] == s[k - i - 1];
    }
  }

  lemma AllAnsweredStep(ms: seq<ContextMessage>)
    requires ms != []
    ensures AllAnswered(ms) <==> AllAnswered(ms[1..]) && forall c | c in Calls(ms[0]) :: AnsweredAhead(ms[1..], c)
  {
    forall i, c | 0 <= i < |ms|
      ensures IsAnswered(ms, i, c) <==> AnsweredAhead(ms[i + 1..], c)
    {
      IsAnsweredAhead(ms, i, c);
    }
    forall i, c | 0 <= i < |ms[1..]|
      ensures IsAnswered(ms[1..], i, c) <==> IsAnswered(ms, i + 1, c)
    {
      IsAnsweredAhead(ms[1..], i, c);
      assert ms[1..][i + 1..] == ms[i + 2..];
    }
    if AllAnswered(ms) {
      assert forall i | 0 <= i < |ms[1..]| :: ms[1..][i] == ms[i + 1];
    }
    if AllAnswered(ms[1..]) {
      assert forall i | 1 <= i < |ms| :: ms[i] == ms[1..][i - 1];
    }
  }

  lemma {:induction false} CompleteIsAllAnswered(ms: seq<ContextMessage>, calls: seq<ToolCall>, answered: Ids)
    ensures Complete(ms, calls, answered) <==>
            AllAnswered(ms) && forall k | 0 <= k < |calls| :: Some(calls[k].id) in answered || AnsweredAhead(ms, calls[k])
  {
    MissingNothing(calls, answered);
    if ms != [] {
      AllAnsweredStep(ms);
      forall c
        ensures AnsweredAhead(ms, c) <==> ms[0].role == Tool && (AnswersCall(ms[0], c) || AnsweredAhead(ms[1..], c))
      {
        AnsweredAheadStep(ms, c);
      }
      if calls != [] && ms[0].role == Tool {
        CompleteIsAllAnswered(ms[1..], calls, answered + {ms[0].toolCallId});
      } else {
        CompleteIsAllAnswered(ms[1..], Calls(ms[0]), {});
      }
    }
  }

  lemma {:induction false} ClosedUnchangedIfComplete(ms: seq<ContextMessage>, calls: seq<ToolCall>, answered: Ids)
    ensures |Closed(ms, calls, answered)| >= |ms|
    ensures Closed(ms, calls, answered) == ms <==> Complete(ms, calls, answered)
  {
    if ms != [] {
      if calls != [] && ms[0].role == Tool {
        ClosedUnchangedIfComplete(ms[1..], calls, answered + {ms[0].toolCallId});
        assert Closed(ms, calls, answered)[1..] == Closed(ms[1..], calls, answered + {ms[0].toolCallId});
      } else {
        ClosedUnchangedIfComplete(ms[1..], Calls(ms[0]), {});
        if Missing(calls, answered) == [] {
          assert Closed(ms, calls, answered)[1..] == Closed(ms[1..], Calls(ms[0]), {});
        }
      }
    }
  }

  /** Placeholders read back as answers to the calls they were made for. */
  lemma {:induction false} CompleteAfterMissing(
    rest: seq<ContextMessage>, calls: seq<ToolCall>, n: nat, skipped: Ids, answered: Ids)
    requires calls != [] && n <= |calls| && skipped <= answered
    requires forall k | 0 <= k < n :: Some(calls[k].id) in answered
    requires rest != [] ==> rest[0].role != Tool
    requires Complete(rest, [], {})
    ensures Complete(Missing(calls[n..], skipped) + rest, calls, answered)
    decreases |calls| - n
  {
    if n == |calls| {
      MissingNothing(calls, answered);
      assert Missing(calls[n..], skipped) + rest == rest;
    } else {
      MissingAt(calls, n, skipped);
      var more := if Some(calls[n].id) in skipped then answered else answered + {Some(calls[n].id)};
      CompleteAfterMissing(rest, calls, n + 1, skipped, more);
      var tail := Missing(calls[n + 1..], skipped) + rest;
      if Some(calls[n].id) in skipped {
        assert Missing(calls[n..], skipped) + rest == tail;
      } else {
        assert ([NotRun(calls[n])] + tail)[1..] == tail;
        assert Missing(calls[n..], skipped) + rest == [NotRun(calls[n])] + tail;
      }
    }
  }

  lemma {:induction false} ClosedIsComplete(ms: seq<ContextMessage>, calls: seq<ToolCall>, answered: Ids)
    ensures Complete(Closed(ms, calls, answered), calls, answered)
  {
    if ms == [] {
      MissingThenComplete([], calls, answered);
      assert Missing(calls, answered) + [] == Missing(calls, answered);
    } else if calls != [] && ms[0].role == Tool {
      ClosedIsComplete(ms[1..], calls, answered + {ms[0].toolCallId});
      assert Closed(ms, calls, answered)[1..] == Closed(ms[1..], calls, answered + {ms[0].toolCallId});
    } else {
      ClosedIsComplete(ms[1..], Calls(ms[0]), {});
      CompleteFromHead(ms[0], Closed(ms[1..], Calls(ms[0]), {}), calls, answered);
    }
  }

  lemma CompleteFromHead(m: ContextMessage, rest: seq<ContextMessage>, calls: seq<ToolCall>, answered: Ids)
    requires calls == [] || m.role != Tool
    requires Complete(rest, Calls(m), {})
    ensures Complete(Missing(calls, answered) + [m] + rest, calls, answered)
  {
    var tail := [m] + rest;
    assert tail[0] == m && tail[1..] == rest;
    assert Complete(tail, [], {});
    MissingThenComplete(tail, calls, answered);
    assert Missing(calls, answered) + [m] + rest == Missing(calls, answered) + tail;
  }

  lemma MissingThenComplete(rest: seq<ContextMessage>, calls: seq<ToolCall>, answered: Ids)
    requires calls == [] || rest == [] || rest[0].role != Tool
    requires Complete(rest, [], {})
    ensures Complete(Missing(calls, answered) + rest, calls, answered)
  {
    if calls == [] {
      assert Missing(calls, answered) + rest == rest;
      CompleteWithoutCalls(rest, answered);
    } else {
      assert calls[0..] == calls;
      CompleteAfterMissing(rest, calls, 0, answered, answered);
    }
  }

  lemma CompleteWithoutCalls(ms: seq<ContextMessage>, answered: Ids)
    requires Complete(ms, [], {})
    ensures Complete(ms, [], answered)
  {
  }

  /** closeDanglingToolCalls answers every call, and changes nothing exactly when nothing was missing. */
  lemma ClosedAnswersAll(ms: seq<ContextMessage>)
    ensures AllAnswered(Closed(ms, [], {}))
    ensures Closed(ms, [], {}) == ms <==> AllAnswered(ms)
  {
    ClosedIsComplete(ms, [], {});
    CompleteIsAllAnswered(Closed(ms, [], {}), [], {});
    CompleteIsAllAnswered(ms, [], {});
    ClosedUnchangedIfComplete(ms, [], {});
  }

  lemma ClosedIdempotent(ms: seq<ContextMessage>)
    ensures Closed(Closed(ms, [], {}), [], {}) == Closed(ms, [], {})
  {
    ClosedAnswersAll(ms);
    ClosedAnswersAll(Closed(ms, [], {}));
  }

  /** `out` is `ms` with placeholder tool messages inserted. */
  ghost predicate WithPlaceholders(ms: seq<ContextMessage>, out: seq<ContextMessage>) {
    if out == [] then ms == []
    else
      (ms != [] && out[0] == ms[0] && WithPlaceholders(ms[1..], out[1..])) ||
      (out[0].role == Tool && out[0].content == Text("[Not run: the turn ended before this tool call executed]")
       && WithPlaceholders(ms, out[1..]))
  }

  lemma KeepHead(m: ContextMessage, ms: seq<ContextMessage>, out: seq<ContextMessage>)
    requires WithPlaceholders(ms, out)
    ensures WithPlaceholders([m] + ms, [m] + out)
  {
    assert ([m] + ms)[1..] == ms && ([m] + out)[1..] == out;
  }

  lemma AddPlaceholder(m: ContextMessage, ms: seq<ContextMessage>, out: seq<ContextMessage>)
    requires WithPlaceholders(ms, out) && m.role == Tool && m.content == Text(NOT_RUN)
    ensures WithPlaceholders(ms, [m] + out)
  {
    assert ([m] + out)[1..] == out;
  }

  lemma {:induction false} MissingInFront(calls: seq<ToolCall>, answered: Ids, ms: seq<ContextMessage>, out: seq<ContextMessage>)
    requires WithPlaceholders(ms, out)
    ensures WithPlaceholders(ms, Missing(calls, answered) + out)
  {
    if calls == [] {
      assert [] + out == out;
    } else {
      MissingInFront(calls[1..], answered, ms, out);
      if Some(calls[0].id) !in answered {
        Associate([NotRun(calls[0])], Missing(calls[1..], answered), out);
        AddPlaceholder(NotRun(calls[0]), ms, Missing(calls[1..], answered) + out);
        assert Missing(calls, answered) + out == [NotRun(calls[0])] + (Missing(calls[1..], answered) + out);
      }
    }
  }

  /** The input survives, in order; only placeholders come in between. */
  lemma {:induction false} ClosedKeepsMessages(ms: seq<ContextMessage>, calls: seq<ToolCall>, answered: Ids)
    ensures WithPlaceholders(ms, Closed(ms, calls, answered))
  {
    if ms == [] {
      MissingInFront(calls, answered, [], []);
      assert Missing(calls, answered) + [] == Missing(calls, answered);
    } else {
      var m, rest := ms[0], ms[1..];
      assert [m] + rest == ms;
      if calls != [] && m.role == Tool {
        ClosedKeepsMessages(rest, calls, answered + {m.toolCallId});
        KeepHead(m, rest, Closed(rest, calls, answered + {m.toolCallId}));
      } else {
        ClosedKeepsMessages(rest, Calls(m), {});
        KeepHead(m, rest, Closed(rest, Calls(m), {}));
        MissingInFront(calls, answered, ms, [m] + Closed(rest, Calls(m), {}));
        MoveOne(Missing(calls, answered), m, Closed(rest, Calls(m), {}));
      }
    }
  }

  // ---------------------------------------------------------------------------------------------
  // A tool batch cut short

  /** No call still to be answered shares its id with one already answered. */
  ghost predicate NoReusedId(calls: seq<ToolCall>, k: nat)
    requires k <= |calls|
  {
    forall i, j | 0 <= i < k <= j < |calls| :: calls[i].id != calls[j].id
  }

  /** Closing the messages of a paired history that ends in a cut batch: `calls` were made, `tools`
      answered the first of them. */
  lemma {:induction false} ClosedAfterPaired(
    a: seq<ContextMessage>, b: seq<ContextMessage>, calls: seq<ToolCall>, n: nat, answered: Ids)
    requires n <= |calls| && Owed(a, calls[n..]) == Some([])
    requires b != [] ==> b[0].role != Tool
    requires forall k | 0 <= k < n :: Some(calls[k].id) in answered
    ensures Closed(a + b, calls, answered) == a + Closed(b, [], {})
  {
    if a == [] {
      MissingNothing(calls, answered);
      assert a + b == b;
      ClosedOutsideRun(b, calls, answered);
    } else {
      var m, rest := a[0], a[1..];
      assert a + b == [m] + (rest + b);
      if n < |calls| {
        assert calls[n..][1..] == calls[n + 1..];
        ClosedToolHead(m, rest + b, calls, answered);
        ClosedAfterPaired(rest, b, calls, n + 1, answered + {m.toolCallId});
      } else {
        MissingNothing(calls, answered);
        ClosedOtherHead(m, rest + b, calls, answered);
        assert Calls(m)[0..] == Calls(m);
        ClosedAfterPaired(rest, b, Calls(m), 0, {});
      }
      assert [m] + (rest + Closed(b, [], {})) == a + Closed(b, [], {});
    }
  }

  lemma ClosedToolHead(m: ContextMessage, ms: seq<ContextMessage>, calls: seq<ToolCall>, answered: Ids)
    requires calls != [] && m.role == Tool
    ensures Closed([m] + ms, calls, answered) == [m] + Closed(ms, calls, answered + {m.toolCallId})
  {
    assert ([m] + ms)[1..] == ms;
  }

  lemma ClosedOtherHead(m: ContextMessage, ms: seq<ContextMessage>, calls: seq<ToolCall>, answered: Ids)
    requires m.role != Tool && Missing(calls, answered) == []
    ensures Closed([m] + ms, calls, answered) == [m] + Closed(ms, Calls(m), {})
  {
    assert ([m] + ms)[1..] == ms;
    assert Missing(calls, answered) + [m] == [m];
  }

  function IdsOf(tools: seq<ContextMessage>): Ids {
    if tools == [] then {} else {tools[0].toolCallId} + IdsOf(tools[1..])
  }

  lemma {:induction false} IdsOfMember(tools: seq<ContextMessage>, id: Option<string>)
    ensures id in IdsOf(tools) <==> exists t :: t in tools && t.toolCallId == id
  {
    if tools != [] {
      IdsOfMember(tools[1..], id);
      assert forall t :: t in tools <==> t == tools[0] || t in tools[1..];
    }
  }

  lemma {:induction false} ClosedRun(tools: seq<ContextMessage>, calls: seq<ToolCall>, answered: Ids)
    requires calls != []
    requires forall i | 0 <= i < |tools| :: tools[i].role == Tool
    ensures Closed(tools, calls, answered) == tools + Missing(calls, answered + IdsOf(tools))
  {
    if tools == [] {
      assert answered + {} == answered;
    } else {
      var m, rest := tools[0], tools[1..];
      ClosedRun(rest, calls, answered + {m.toolCallId});
      var extra := Missing(calls, answered + IdsOf(tools));
      assert answered + {m.toolCallId} + IdsOf(rest) == answered + IdsOf(tools);
      assert Closed(tools, calls, answered) == [m] + (rest + extra);
      assert [m] + (rest + extra) == tools + extra;
    }
  }

  /** The placeholders for `calls` answer them all exactly when none is withheld. */
  lemma {:induction false} MissingOwed(calls: seq<ToolCall>, answered: Ids)
    ensures Owed(Missing(calls, answered), calls) == Some([]) <==> NoneIn(calls, answered)
  {
    if calls != [] {
      MissingOwed(calls[1..], answered);
      assert NoneIn(calls, answered) <==> Some(calls[0].id) !in answered && NoneIn(calls[1..], answered);
      if Some(calls[0].id) in answered {
        MissingShort(calls[1..], answered);
        if Owed(Missing(calls, answered), calls) == Some([]) {
          OwedLength(Missing(calls, answered), calls);
        }
      }
    }
  }

  lemma {:induction false} MissingShort(calls: seq<ToolCall>, answered: Ids)
    ensures |Missing(calls, answered)| <= |calls|
  {
    if calls != [] {
      MissingShort(calls[1..], answered);
    }
  }

  lemma {:induction false} OwedLength(ms: seq<ContextMessage>, due: seq<ToolCall>)
    requires Owed(ms, due) == Some([])
    ensures |due| <= |ms|
  {
    if ms != [] && due != [] {
      OwedLength(ms[1..], due[1..]);
    }
  }

  lemma {:induction false} MissingSplit(calls: seq<ToolCall>, k: nat, answered: Ids)
    requires k <= |calls| && forall i | 0 <= i < k :: Some(calls[i].id) in answered
    ensures Missing(calls, answered) == Missing(calls[k..], answered)
  {
    if k > 0 {
      MissingSplit(calls[1..], k - 1, answered);
      assert calls[1..][k - 1..] == calls[k..];
    } else {
      assert calls[0..] == calls;
    }
  }

  /** A history whose last batch was cut after `tools` had answered its first calls, closed for storage:
      it is well paired exactly when no unanswered call repeats the id of an answered one. */
  lemma ClosedCutBatch(before: seq<ContextMessage>, call: ContextMessage, tools: seq<ContextMessage>)
    requires WellPaired(before)
    requires call.role == Assistant && |tools| <= |call.toolCalls|
    requires forall i | 0 <= i < |tools| :: AnswersCall(tools[i], call.toolCalls[i])
    ensures WellPaired(Closed(before + ([call] + tools), [], {})) <==> NoReusedId(call.toolCalls, |tools|)
  {
    var calls := call.toolCalls;
    ClosedAfterPaired(before, [call] + tools, [], 0, {});
    PairedAppend(before, Closed([call] + tools, [], {}));
    ClosedBatch(call, tools);
    assert ([call] + Closed(tools, calls, {}))[1..] == Closed(tools, calls, {});
    OwedBehind(call, Closed(tools, calls, {}));
    if calls != [] {
      ClosedBatchOwed(calls, tools);
    } else {
      NothingToClose(tools, calls);
    }
  }

  lemma OwedBehind(m: ContextMessage, rest: seq<ContextMessage>)
    requires m.role != Tool
    ensures Owed([m] + rest, []) == Owed(rest, Calls(m))
  {
    assert ([m] + rest)[1..] == rest;
  }

  lemma NothingToClose(tools: seq<ContextMessage>, calls: seq<ToolCall>)
    requires calls == [] && |tools| <= |calls|
    ensures Owed(Closed(tools, calls, {}), calls) == Some([]) && NoReusedId(calls, |tools|)
  {
    assert Closed(tools, calls, {}) == [];
  }

  lemma ClosedBatch(call: ContextMessage, tools: seq<ContextMessage>)
    requires call.role == Assistant
    ensures Closed([call] + tools, [], {}) == [call] + Closed(tools, call.toolCalls, {})
  {
    assert ([call] + tools)[1..] == tools;
    assert Missing([], {}) + [call] == [call];
  }

  lemma ClosedBatchOwed(calls: seq<ToolCall>, tools: seq<ContextMessage>)
    requires calls != [] && |tools| <= |calls|
    requires forall i | 0 <= i < |tools| :: AnswersCall(tools[i], calls[i])
    ensures Owed(Closed(tools, calls, {}), calls) == Some([]) <==> NoReusedId(calls, |tools|)
  {
    var left, ids := calls[|tools|..], IdsOf(tools);
    BatchIds(calls, tools);
    ClosedRun(tools, calls, {});
    assert {} + ids == ids;
    MissingSplit(calls, |tools|, ids);
    OwedAppend(tools, Missing(left, ids), calls);
    OwedAfterAnswers(tools, calls);
    MissingOwed(left, ids);
  }

  /** The ids a partly answered batch has answered, and those it has not. */
  lemma BatchIds(calls: seq<ToolCall>, tools: seq<ContextMessage>)
    requires |tools| <= |calls|
    requires forall i | 0 <= i < |tools| :: AnswersCall(tools[i], calls[i])
    ensures forall i | 0 <= i < |tools| :: Some(calls[i].id) in IdsOf(tools)
    ensures NoneIn(calls[|tools|..], IdsOf(tools)) <==> NoReusedId(calls, |tools|)
  {
    forall i | 0 <= i < |tools|
      ensures Some(calls[i].id) in IdsOf(tools)
    {
      assert tools[i] in tools && AnswersCall(tools[i], calls[i]);
      IdsOfMember(tools, Some(calls[i].id));
    }
    forall j | |tools| <= j < |calls|
      ensures Some(calls[j].id) in IdsOf(tools) <==> exists i :: 0 <= i < |tools| && calls[i].id == calls[j].id
    {
      AnswersById(calls, tools, calls[j].id);
    }
    NoneInRest(calls, |tools|, IdsOf(tools));
  }

  lemma NoneInRest(calls: seq<ToolCall>, k: nat, ids: Ids)
    requires k <= |calls|
    ensures NoneIn(calls[k..], ids) <==> forall j | k <= j < |calls| :: Some(calls[j].id) !in ids
  {
    if NoneIn(calls[k..], ids) {
      forall j | k <= j < |calls|
        ensures Some(calls[j].id) !in ids
      {
        assert calls[k..][j - k] == calls[j];
      }
    }
  }

  lemma AnswersById(calls: seq<ToolCall>, tools: seq<ContextMessage>, id: string)
    requires |tools| <= |calls|
    requires forall i | 0 <= i < |tools| :: AnswersCall(tools[i], calls[i])
    ensures Some(id) in IdsOf(tools) <==> exists i :: 0 <= i < |tools| && calls[i].id == id
  {
    IdsOfMember(tools, Some(id));
    if Some(id) in IdsOf(tools) {
      var t :| t in tools && t.toolCallId == Some(id);
      var i :| 0 <= i < |tools| && tools[i] == t;
      assert AnswersCall(tools[i], calls[i]);
    }
    if exists i :: 0 <= i < |tools| && calls[i].id == id {
      var i :| 0 <= i < |tools| && calls[i].id == id;
      assert AnswersCall(tools[i], calls[i]) && tools[i] in tools;
    }
  }
}
