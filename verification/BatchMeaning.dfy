/** What a batch of tool calls adds to the conversation, message by message. */
module BatchMeaning {
  import opened Options
  import opened Sequences
  import opened Conversation
  import opened AgentTurn
  import opened ToolBatch
  import opened TurnPlay

  /** The message with the calls. */
  ghost predicate IsCall(m: ContextMessage, content: Content, calls: seq<ToolCall>) {
    m.role == Assistant && m.content == content && m.toolCalls == calls && m.toolCallId == None && m.toolName == None
  }

  /** A tool message for this call. */
  ghost predicate IsAnswer(m: ContextMessage, call: ToolCall, text: string) {
    m.role == Tool && m.toolCallId == Some(call.id) && m.toolName == Some(call.name) && m.toolCalls == [] && m.content == Text(text)
  }

  /** A tool message that says how the call came out. */
  ghost predicate Tells(m: ContextMessage, call: ToolCall, o: Outcome) {
    match o
    case Refused(reply) => IsAnswer(m, call, reply)
    case Spawned(report) => IsAnswer(m, call, report)
    case Executed(output, image) => IsAnswer(m, call, output)
  }

  /** A user message with these parts. */
  ghost predicate Shows(m: ContextMessage, parts: seq<Part>) {
    m.role == User && m.content == Parts(parts) && m.toolCalls == [] && m.toolCallId == None && m.toolName == None
  }

  ghost predicate HasImage(o: Outcome) { o.Executed? && o.image.Some? }

  /** The calls among the first `n` that have an image. */
  ghost function WithImage(outcomes: seq<Outcome>, n: nat): set<nat>
    requires n <= |outcomes|
  {
    set i | 0 <= i < n && HasImage(outcomes[i])
  }

  /** A complete batch: the calls; behind them, in call order, what every one came to; and behind those the
      images of the calls that have one, in call order. */
  ghost predicate ReadsAsBatch(ms: seq<ContextMessage>, content: Content, calls: seq<ToolCall>, outcomes: seq<Outcome>, at: seq<nat>) {
    && |outcomes| == |calls| && |ms| == 1 + |calls| + |at|
    && IsCall(ms[0], content, calls)
    && (forall i | 0 <= i < |calls| :: Tells(ms[1 + i], calls[i], outcomes[i]))
    && Lists(at, WithImage(outcomes, |calls|))
    && forall k | 0 <= k < |at| :: ShowsImage(ms[1 + |calls| + k], outcomes, at[k])
  }

  ghost predicate ShowsImage(m: ContextMessage, outcomes: seq<Outcome>, i: nat) {
    i < |outcomes| && HasImage(outcomes[i]) && Shows(m, outcomes[i].image.value)
  }

  ghost predicate ImageAt(images: seq<seq<Part>>, k: nat, outcomes: seq<Outcome>, i: nat) {
    k < |images| && i < |outcomes| && HasImage(outcomes[i]) && images[k] == outcomes[i].image.value
  }

  /** The images attached are those of the calls that have one. */
  lemma {:induction false} ImagesPicked(outcomes: seq<Outcome>, n: nat) returns (at: seq<nat>)
    requires n <= |outcomes|
    ensures Lists(at, WithImage(outcomes, n)) && |AttachedImages(outcomes, n)| == |at|
    ensures forall k | 0 <= k < |at| :: ImageAt(AttachedImages(outcomes, n), k, outcomes, at[k])
  {
    at := [];
    if n > 0 {
      var front := ImagesPicked(outcomes, n - 1);
      if HasImage(outcomes[n - 1]) {
        assert WithImage(outcomes, n) == WithImage(outcomes, n - 1) + {n - 1};
        ListsMore(front, WithImage(outcomes, n - 1), n - 1);
        at := front + [n - 1];
      } else {
        assert WithImage(outcomes, n) == WithImage(outcomes, n - 1);
        at := front;
      }
      forall k | 0 <= k < |at|
        ensures ImageAt(AttachedImages(outcomes, n), k, outcomes, at[k])
      {
        assert k < |front| ==> ImageAt(AttachedImages(outcomes, n - 1), k, outcomes, front[k]);
      }
    }
  }

  /** The messages of a batch, one by one. */
  lemma AnswerAt(content: Content, calls: seq<ToolCall>, texts: seq<string>, images: seq<seq<Part>>, i: nat)
    requires i < |texts| == |calls|
    ensures FullBatch(content, calls, texts, images)[1 + i] == ToolMessage(calls[i], texts[i])
  {
    assert PartialBatch(content, calls, texts)[1 + i] == ToolMessages(calls, texts)[i];
  }

  lemma ImageMessageAt(content: Content, calls: seq<ToolCall>, texts: seq<string>, images: seq<seq<Part>>, k: nat)
    requires |texts| == |calls| && k < |images|
    ensures FullBatch(content, calls, texts, images)[1 + |calls| + k] == Plain(User, Parts(images[k]))
  {
    var front := PartialBatch(content, calls, texts);
    assert |front| == 1 + |calls|;
    assert (front + ImageMessages(images))[|front| + k] == ImageMessages(images)[k];
  }

  lemma ResultIsTold(m: ContextMessage, call: ToolCall, o: Outcome)
    requires m == ToolMessage(call, Result(o))
    ensures Tells(m, call, o)
  {
  }

  lemma ImageIsShown(m: ContextMessage, images: seq<seq<Part>>, k: nat, outcomes: seq<Outcome>, i: nat)
    requires ImageAt(images, k, outcomes, i) && m == Plain(User, Parts(images[k]))
    ensures ShowsImage(m, outcomes, i)
  {
  }

  /** Every complete batch says this. */
  lemma WholeBatchReads(content: Content, calls: seq<ToolCall>, outcomes: seq<Outcome>, ms: seq<ContextMessage>) returns (at: seq<nat>)
    requires |outcomes| == |calls| && ms == WholeBatch(content, calls, outcomes)
    ensures ReadsAsBatch(ms, content, calls, outcomes, at)
  {
    var images := AttachedImages(outcomes, |calls|);
    at := ImagesPicked(outcomes, |calls|);
    forall i | 0 <= i < |calls|
      ensures Tells(ms[1 + i], calls[i], outcomes[i])
    {
      AnswerAt(content, calls, Results(outcomes), images, i);
      ResultIsTold(ms[1 + i], calls[i], outcomes[i]);
    }
    forall k | 0 <= k < |at|
      ensures ShowsImage(ms[1 + |calls| + k], outcomes, at[k])
    {
      ImageMessageAt(content, calls, Results(outcomes), images, k);
      ImageIsShown(ms[1 + |calls| + k], images, k, outcomes, at[k]);
    }
    assert ms[0] == CallMessage(content, calls);
  }

  // ---------------------------------------------------------------------------------------------
  // A batch that is cut

  /** The result comes later: a sub-agent's report, or in a batch of several lookups that of a lookup. */
  ghost predicate ComesLater(calls: seq<ToolCall>, o: Outcome) {
    o.Spawned? || (o.Executed? && |calls| > 1 && forall i | 0 <= i < |calls| :: calls[i].name in PARALLEL_SAFE_TOOLS)
  }

  /** Call `i` is collected ahead of call `j`: lookups before reports, each in call order. */
  ghost predicate Ahead(outcomes: seq<Outcome>, i: nat, j: nat)
    requires i < |outcomes| && j < |outcomes|
  {
    if outcomes[i].Spawned? == outcomes[j].Spawned? then i < j else outcomes[j].Spawned?
  }

  /** The calls whose results have been collected: as many as there were moments for after all calls were
      issued, and none of them before one ahead of it. */
  ghost predicate CollectedBy(calls: seq<ToolCall>, outcomes: seq<Outcome>, stopAt: nat, done: set<nat>)
    requires |outcomes| == |calls|
  {
    && |done| == (if stopAt <= |calls| then 0 else stopAt - |calls|)
    && (forall j | j in done :: j < |calls| && ComesLater(calls, outcomes[j]))
    && (forall i: nat, j: nat | i < |calls| && j in done && j < |calls| && ComesLater(calls, outcomes[i]) && Ahead(outcomes, i, j) :: i in done)
  }

  /** A batch cut at a moment: the calls, and a tool message for each of those issued by then: what it came
      to, if that was known at once or has been collected, and an empty text otherwise. */
  ghost predicate ReadsAsCut(ms: seq<ContextMessage>, content: Content, calls: seq<ToolCall>, outcomes: seq<Outcome>, stopAt: nat, done: set<nat>) {
    && |outcomes| == |calls| && |ms| == 1 + (if stopAt < |calls| then stopAt else |calls|)
    && IsCall(ms[0], content, calls)
    && CollectedBy(calls, outcomes, stopAt, done)
    && forall i | 0 <= i < |ms| - 1 ::
         if ComesLater(calls, outcomes[i]) && i !in done then IsAnswer(ms[1 + i], calls[i], "") else Tells(ms[1 + i], calls[i], outcomes[i])
  }

  lemma {:induction false} WaitingRises(outcomes: seq<Outcome>, spawns: bool, parallel: bool, n: nat)
    requires n <= |outcomes|
    ensures Rises(Waiting(outcomes, spawns, parallel, n))
  {
    if n > 0 {
      WaitingRises(outcomes, spawns, parallel, n - 1);
    }
  }

  /** The order of collection: every deferred call once, none before one ahead of it. */
  lemma CollectedInOrder(outcomes: seq<Outcome>, parallel: bool)
    ensures var order := Collected(outcomes, parallel);
            && (forall j: nat :: j in order <==> j < |outcomes| && Deferred(outcomes[j], parallel))
            && (forall a | 0 <= a < |order| :: order[a] < |outcomes|)
            && (forall a, b | 0 <= a < b < |order| :: order[a] != order[b] && Ahead(outcomes, order[a], order[b]))
  {
    var lookups, reports := Waiting(outcomes, false, parallel, |outcomes|), Waiting(outcomes, true, parallel, |outcomes|);
    WaitingRises(outcomes, false, parallel, |outcomes|);
    WaitingRises(outcomes, true, parallel, |outcomes|);
    forall j: nat
      ensures j in lookups + reports <==> j < |outcomes| && Deferred(outcomes[j], parallel)
    {
      WaitingMember(outcomes, false, parallel, |outcomes|, j);
      WaitingMember(outcomes, true, parallel, |outcomes|, j);
    }
  }

  lemma {:induction false} FirstOnesCounted(order: seq<nat>, k: nat) returns (done: set<nat>)
    requires k <= |order| && forall a, b | 0 <= a < b < |order| :: order[a] != order[b]
    ensures |done| == k && forall j :: j in done <==> j in order[..k]
  {
    done := {};
    if k > 0 {
      var front := FirstOnesCounted(order, k - 1);
      assert order[..k] == order[..k - 1] + [order[k - 1]];
      done := front + {order[k - 1]};
    }
  }

  lemma ComingLater(calls: seq<ToolCall>, o: Outcome)
    ensures ComesLater(calls, o) <==> Deferred(o, Parallel(calls))
  {
  }

  /** While calls are issued, nothing has been collected. */
  lemma FirstTextsTell(calls: seq<ToolCall>, outcomes: seq<Outcome>, m: ContextMessage, i: nat)
    requires |outcomes| == |calls| && i < |calls| && m == ToolMessage(calls[i], FirstText(outcomes[i], Parallel(calls)))
    ensures if ComesLater(calls, outcomes[i]) then IsAnswer(m, calls[i], "") else Tells(m, calls[i], outcomes[i])
  {
    ComingLater(calls, outcomes[i]);
  }

  /** What a text of a cut batch is. */
  lemma CutTextAt(calls: seq<ToolCall>, outcomes: seq<Outcome>, stopAt: nat, done: set<nat>, i: nat, text: string)
    requires |outcomes| == |calls| && BatchIsCut(calls, outcomes, stopAt) && i < |TextsAt(outcomes, Parallel(calls), stopAt)|
    requires text == TextsAt(outcomes, Parallel(calls), stopAt)[i]
    requires stopAt < |calls| ==> done == {}
    requires stopAt >= |calls| ==> forall j :: j in done <==> j in Collected(outcomes, Parallel(calls))[..stopAt - |calls|]
    ensures text == if i in done then Result(outcomes[i]) else FirstText(outcomes[i], Parallel(calls))
  {
    var parallel := Parallel(calls);
    if stopAt >= |calls| {
      FilledAt(FirstTexts(outcomes, parallel, |outcomes|), outcomes, Collected(outcomes, parallel), stopAt - |calls|, i);
    }
  }

  lemma DoneCollected(calls: seq<ToolCall>, outcomes: seq<Outcome>, stopAt: nat) returns (done: set<nat>)
    requires |outcomes| == |calls| && BatchIsCut(calls, outcomes, stopAt)
    ensures CollectedBy(calls, outcomes, stopAt, done) && (stopAt < |calls| ==> done == {})
    ensures stopAt >= |calls| ==> forall j :: j in done <==> j in Collected(outcomes, Parallel(calls))[..stopAt - |calls|]
  {
    done := {};
    if stopAt >= |calls| {
      var order, k := Collected(outcomes, Parallel(calls)), stopAt - |calls|;
      CollectedInOrder(outcomes, Parallel(calls));
      done := FirstOnesCounted(order, k);
      PrefixIsClosed(calls, outcomes, order, k, done);
    }
  }

  lemma PrefixIsClosed(calls: seq<ToolCall>, outcomes: seq<Outcome>, order: seq<nat>, k: nat, done: set<nat>)
    requires |outcomes| == |calls| && k <= |order| && forall j :: j in done <==> j in order[..k]
    requires forall j: nat :: j in order <==> j < |outcomes| && Deferred(outcomes[j], Parallel(calls))
    requires forall a | 0 <= a < |order| :: order[a] < |outcomes|
    requires forall a, b | 0 <= a < b < |order| :: Ahead(outcomes, order[a], order[b])
    ensures forall j | j in done :: j < |calls| && ComesLater(calls, outcomes[j])
    ensures forall i: nat, j: nat | i < |calls| && j in done && j < |calls| && ComesLater(calls, outcomes[i]) && Ahead(outcomes, i, j) :: i in done
  {
    forall j | j in done
      ensures j < |calls| && ComesLater(calls, outcomes[j])
    {
      assert j in order;
      ComingLater(calls, outcomes[j]);
    }
    forall i: nat, j: nat | i < |calls| && j in done && j < |calls| && ComesLater(calls, outcomes[i]) && Ahead(outcomes, i, j)
      ensures i in done
    {
      ComingLater(calls, outcomes[i]);
      var a :| 0 <= a < |order| && order[a] == i;
      var b :| 0 <= b < k && order[..k][b] == j;
      assert order[b] == j && a != b;
      assert a < k;
      assert order[..k][a] == i;
    }
  }

  /** Every batch that is cut says this. */
  lemma CutBatchReads(content: Content, calls: seq<ToolCall>, outcomes: seq<Outcome>, stopAt: nat, ms: seq<ContextMessage>)
    returns (done: set<nat>)
    requires |outcomes| == |calls| && BatchIsCut(calls, outcomes, stopAt)
    requires ms == CutBatch(CutOf(content, calls, outcomes, stopAt))
    ensures ReadsAsCut(ms, content, calls, outcomes, stopAt, done)
  {
    var texts := TextsAt(outcomes, Parallel(calls), stopAt);
    done := DoneCollected(calls, outcomes, stopAt);
    assert ms[0] == CallMessage(content, calls);
    forall i | 0 <= i < |ms| - 1
      ensures if ComesLater(calls, outcomes[i]) && i !in done then IsAnswer(ms[1 + i], calls[i], "") else Tells(ms[1 + i], calls[i], outcomes[i])
    {
      assert ms[1 + i] == ToolMessage(calls[i], texts[i]);
      CutTextAt(calls, outcomes, stopAt, done, i, texts[i]);
      if i in done {
        ResultIsTold(ms[1 + i], calls[i], outcomes[i]);
      } else {
        FirstTextsTell(calls, outcomes, ms[1 + i], i);
      }
    }
  }
}
