/** When a stored message is not what was said, and runs of the loop that lose, rewrite and repeat messages. */
module TurnFailures {
  import opened Options
  import opened Conversation
  import opened Compaction
  import opened MessageTable
  import opened AgentTurn
  import opened TurnSafety
  import opened TurnPlay

  /** The message in this cell gives way to its placeholder. */
  ghost predicate GivesWay(t: Turn, e: Event, i: nat) {
    e.PlaceholderCompaction? && i < |t.cells| && HasItsTurn(e.env, Msgs(t.cells), e.target, e.keepLast, i) &&
    t.cells[i].msg.role != System && t.cells[i].msg.content != Text(e.env.summary(t.cells[i].msg))
  }

  /** The step is a placeholder compaction in which message `n`, not saved yet, has its turn. */
  ghost predicate Rewrites(t: Turn, e: Event, n: nat) {
    exists i: nat :: Awaits(t.cells, t.persisted, i, n) && GivesWay(t, e, i)
  }

  /** The form of a message changes exactly when it is rewritten unsaved; once saved it stands. */
  lemma FormChangesIff(t: Turn, e: Event, n: nat)
    requires Inv(t) && LegalEvent(e) && n < |t.forms|
    ensures Next(t, e).forms[n] != t.forms[n] <==> Rewrites(t, e, n)
    ensures n in Numbers(t.saved) ==> Next(t, e).forms[n] == t.forms[n]
  {
    if e.PlaceholderCompaction? {
      var ms := CompactedMessages(e.env, Msgs(t.cells), e.target, e.keepLast);
      if i: nat :| Awaits(t.cells, t.persisted, i, n) {
        AwaitsOnce(t, i, i, n);
        ShrinkForm(t, ms, i, n);
        CompactionChangesIff(e.env, Msgs(t.cells), e.target, e.keepLast, i);
        assert GoodCell(t, t.cells[i]);
        forall j: nat | Awaits(t.cells, t.persisted, j, n)
          ensures j == i
        {
          AwaitsOnce(t, i, j, n);
        }
      }
    }
  }

  /** What is stored of message `n`, if anything, is what was said. */
  ghost predicate AsSaid(t: Turn, n: nat) { n < |t.forms| && |t.forms| == |t.spoken| ==> t.forms[n] == t.spoken[n] }

  lemma NewFormsAsSaid(t: Turn, e: Event, n: nat)
    requires Inv(t) && LegalEvent(e) && AsSaid(t, n) && !Rewrites(t, e, n)
    ensures AsSaid(Next(t, e), n)
  {
    if n < |t.forms| {
      FormChangesIff(t, e, n);
    }
  }

  /** Over every run: a message that is never rewritten while unsaved is recorded exactly as it was said. */
  lemma {:induction false} RecordedAsSaid(t: Turn, es: seq<Event>, n: nat)
    requires Inv(t) && AsSaid(t, n) && forall e | e in es :: LegalEvent(e)
    requires forall k | 0 <= k < |es| :: !Rewrites(After(t, es[..k]), es[k], n)
    ensures AsSaid(After(t, es), n)
    decreases |es|
  {
    if es != [] {
      assert es[..0] == [];
      assert !Rewrites(After(t, es[..0]), es[0], n);
      NewFormsAsSaid(t, es[0], n);
      NextKeeps(t, es[0]);
      forall k | 0 <= k < |es| - 1
        ensures !Rewrites(After(Next(t, es[0]), es[1..][..k]), es[1..][k], n)
      {
        assert es[..k + 1][1..] == es[1..][..k];
        assert !Rewrites(After(t, es[..k + 1]), es[k + 1], n);
      }
      RecordedAsSaid(Next(t, es[0]), es[1..], n);
    }
  }

  // ---------------------------------------------------------------------------------------------
  // Runs from the start of a turn

  /** A fresh turn with an empty history. */
  function EmptyTurn(systemPrompt: string): Turn { Start(false, systemPrompt, [], 0) }

  /** The state after a fresh turn has said `ms`. */
  ghost predicate JustSaid(t: Turn, systemPrompt: string, ms: seq<ContextMessage>) {
    && Inv(t) && !t.nested && t.forms == t.spoken == ms && t.saved == [] && t.lost == {} && t.rows == []
    && Opens(t.cells, systemPrompt, ms) && t.persisted == {0}
  }

  /** The system prompt, and the first messages of a turn. */
  ghost predicate Opens(cells: seq<Cell>, systemPrompt: string, ms: seq<ContextMessage>) {
    && |cells| == |ms| + 1 && cells[0] == Cell(0, Loaded, Plain(System, Text(systemPrompt)))
    && forall i | 1 <= i < |cells| :: cells[i] == Cell(i, Said(i - 1), ms[i - 1])
  }

  lemma FreshStart(systemPrompt: string)
    ensures JustSaid(EmptyTurn(systemPrompt), systemPrompt, [])
  {
    var t, system := EmptyTurn(systemPrompt), [Plain(System, Text(systemPrompt))];
    var h: seq<ContextMessage> := [];
    assert h[..0] == [] && h[0..] == [] && system + [] == system;
    StartIsSafe(false, systemPrompt, [], 0);
    assert t.cells == LoadedCells(system) + [];
    assert t.cells == [Cell(0, Loaded, system[0])];
    forall r
      ensures r in t.persisted <==> r == 0
    {
      KnownRefs(system, r);
    }
  }

  lemma FreshTurn(systemPrompt: string, ms: seq<ContextMessage>)
    requires forall m | m in ms :: Bystander(m) && m.role != System
    ensures JustSaid(Say(EmptyTurn(systemPrompt), ms), systemPrompt, ms)
  {
    FreshStart(systemPrompt);
    SayFirst(EmptyTurn(systemPrompt), systemPrompt, ms);
  }

  lemma SayFirst(t: Turn, systemPrompt: string, ms: seq<ContextMessage>)
    requires JustSaid(t, systemPrompt, []) && t.nextRef == 1 && forall m | m in ms :: Bystander(m) && m.role != System
    ensures JustSaid(Say(t, ms), systemPrompt, ms)
  {
    BystandersArePaired(ms);
    SayKeeps(t, ms);
    assert [] + ms == ms;
  }

  lemma AfterTwo(t: Turn, d: Event, e: Event)
    requires LegalEvent(d) && LegalEvent(e)
    ensures After(t, [d, e]) == Next(Next(t, d), e)
  {
    assert [d, e][1..] == [e] && [e][1..] == [];
    assert After(Next(t, d), [e]) == After(Next(Next(t, d), e), []);
  }

  /** These are exactly the first `k` numbers. */
  ghost predicate FirstOnes(ns: set<nat>, k: nat) { forall n: nat :: n in ns <==> n < k }

  /** Of the messages said, all but the last `keep` are lost, and the next save stores exactly those. */
  ghost predicate LosesAllBut(t: Turn, ms: seq<ContextMessage>, keep: nat) {
    keep <= |ms| && FirstOnes(t.lost, |ms| - keep) && Persist(t).rows == StoredForms(ms[|ms| - keep..])
  }

  /** Messages queued for one step, at which the history is compacted with a summary: all but the last
      ones kept are lost, and the next save stores only those. */
  lemma SummaryLosesQueuedMessages(systemPrompt: string, ms: seq<ContextMessage>, summary: string, keep: nat)
    requires |ms| >= keep + MIN_EVICTED && forall m | m in ms :: Bystander(m) && m.role != System
    ensures LosesAllBut(After(EmptyTurn(systemPrompt), [Speech(ms), SummaryCompaction(keep, summary)]), ms, keep)
  {
    FreshTurn(systemPrompt, ms);
    AfterTwo(EmptyTurn(systemPrompt), Speech(ms), SummaryCompaction(keep, summary));
    var _ := SummaryLosesSaid(Say(EmptyTurn(systemPrompt), ms), systemPrompt, ms, summary, keep);
  }

  /** In the loop itself: a step that picks up the messages, finds the history above 60 % of the window, and
      has it summarised. */
  lemma StepLosesQueuedMessages(systemPrompt: string, s: Step, ms: seq<ContextMessage>, env: Env) returns (u: Turn)
    requires ms == Users(s.queued) && |ms| >= KEPT + MIN_EVICTED && s.compaction.Summary?
    requires ShouldCompact(env, [Plain(System, Text(systemPrompt))] + ms, COMPACT_AT)
    ensures u == Prepared(EmptyTurn(systemPrompt), s, false, env) && LosesAllBut(u, ms, KEPT)
  {
    var t, v := QueuedOnFresh(systemPrompt, s.queued, ms);
    u := StepLosesFrom(t, v, systemPrompt, s, ms, env, KEPT);
  }

  lemma StepLosesFrom(t: Turn, v: Turn, systemPrompt: string, s: Step, ms: seq<ContextMessage>, env: Env, keep: nat) returns (u: Turn)
    requires keep == KEPT && |ms| >= keep + MIN_EVICTED && s.compaction.Summary?
    requires v == Steered(t, s.queued, None) && JustSaid(v, systemPrompt, ms) && forall i | 0 <= i < |ms| :: ms[i].role != Tool
    requires ShouldCompact(env, [Plain(System, Text(systemPrompt))] + ms, COMPACT_AT)
    ensures u == Prepared(t, s, false, env) && LosesAllBut(u, ms, keep)
  {
    StepSummarizes(t, v, systemPrompt, s, ms, env, keep);
    u := SummaryLosesSaid(v, systemPrompt, ms, s.compaction.text, keep);
  }

  lemma StepSummarizes(t: Turn, v: Turn, systemPrompt: string, s: Step, ms: seq<ContextMessage>, env: Env, keep: nat)
    requires keep == KEPT && |ms| >= keep + MIN_EVICTED && s.compaction.Summary? && forall i | 0 <= i < |ms| :: ms[i].role != Tool
    requires v == Steered(t, s.queued, None) && Opens(v.cells, systemPrompt, ms)
    requires ShouldCompact(env, [Plain(System, Text(systemPrompt))] + ms, COMPACT_AT)
    ensures Prepared(t, s, false, env) == Summarize(v, keep, s.compaction.text)
  {
    SpanOfQueued(v.cells, systemPrompt, ms, keep);
    PreparedIsSummary(t, v, s, env, keep);
  }

  lemma QueuedOnFresh(systemPrompt: string, queued: seq<string>, ms: seq<ContextMessage>) returns (t: Turn, v: Turn)
    requires ms == Users(queued)
    ensures t == EmptyTurn(systemPrompt) && v == Steered(t, queued, None) && JustSaid(v, systemPrompt, ms)
    ensures forall i | 0 <= i < |ms| :: ms[i].role != Tool
  {
    t := EmptyTurn(systemPrompt);
    v := Say(t, ms);
    FreshTurn(systemPrompt, ms);
  }

  lemma SpanOfQueued(cells: seq<Cell>, systemPrompt: string, ms: seq<ContextMessage>, keep: nat)
    requires Opens(cells, systemPrompt, ms) && |ms| >= keep + MIN_EVICTED && forall i | 0 <= i < |ms| :: ms[i].role != Tool
    ensures FindsSpan(Msgs(cells), keep) && Msgs(cells) == [Plain(System, Text(systemPrompt))] + ms
  {
    CutOfQueued(cells, systemPrompt, ms, keep, |ms| + 1 - keep);
  }

  lemma PreparedIsSummary(t: Turn, u: Turn, s: Step, env: Env, keep: nat)
    requires keep == KEPT && s.compaction.Summary? && u == Steered(t, s.queued, None)
    requires ShouldCompact(env, Msgs(u.cells), COMPACT_AT) && FindsSpan(Msgs(u.cells), keep)
    ensures Prepared(t, s, false, env) == Summarize(u, keep, s.compaction.text)
  {
  }

  lemma SummaryLosesSaid(t: Turn, systemPrompt: string, ms: seq<ContextMessage>, summary: string, keep: nat) returns (u: Turn)
    requires JustSaid(t, systemPrompt, ms)
    requires |ms| >= keep + MIN_EVICTED && forall i | 0 <= i < |ms| :: ms[i].role != Tool
    ensures u == Summarize(t, keep, summary) && LosesAllBut(u, ms, keep)
  {
    u := SummaryOf(t, keep, summary);
    QueuedAreEvicted(t, u, systemPrompt, ms, keep, summary, |ms| - keep);
    OnlyLast(u, ms, keep, |ms| - keep);
  }

  lemma QueuedAreEvicted(t: Turn, u: Turn, systemPrompt: string, ms: seq<ContextMessage>, keep: nat, summary: string, n: nat)
    requires Opens(t.cells, systemPrompt, ms) && t.persisted == {0} && t.lost == {} && u == Summarize(t, keep, summary)
    requires |ms| == keep + n && n >= MIN_EVICTED && forall i | 0 <= i < |ms| :: ms[i].role != Tool
    ensures FirstOnes(u.lost, n) && u.spoken == t.spoken && u.forms == t.forms && u.nested == t.nested
  {
    QueuedSpan(t.cells, systemPrompt, ms, t.persisted, keep, n);
    SummaryEvicts(t, u, keep, summary, n);
  }

  lemma SummaryOf(t: Turn, keep: nat, summary: string) returns (u: Turn)
    requires Inv(t)
    ensures u == Summarize(t, keep, summary) && Inv(u)
  {
    u := Summarize(t, keep, summary);
    SummarizeKeeps(t, keep, summary);
  }

  /** The cells that summary compaction evicts carry the first `n` messages. */
  lemma QueuedSpan(cells: seq<Cell>, systemPrompt: string, ms: seq<ContextMessage>, persisted: set<nat>, keep: nat, n: nat)
    requires Opens(cells, systemPrompt, ms) && persisted == {0}
    requires |ms| == keep + n && forall i | 0 <= i < |ms| :: ms[i].role != Tool
    ensures EvictsFirst(cells, persisted, keep, n)
  {
    QueuedNumbers(cells, systemPrompt, ms, n, persisted);
    CutOfQueued(cells, systemPrompt, ms, keep, n + 1);
  }

  ghost predicate EvictsFirst(cells: seq<Cell>, persisted: set<nat>, keep: nat, n: nat) {
    && HeadLength(Msgs(cells)) == 1 && CutPoint(Msgs(cells), keep) == n + 1 <= |cells|
    && FirstOnes(NumberSet(AgentTurn.Fresh(cells[1..n + 1], persisted)), n)
  }

  lemma SummaryEvicts(t: Turn, u: Turn, keep: nat, summary: string, n: nat)
    requires n >= MIN_EVICTED && t.lost == {} && u == Summarize(t, keep, summary) && EvictsFirst(t.cells, t.persisted, keep, n)
    ensures FirstOnes(u.lost, n) && u.spoken == t.spoken && u.forms == t.forms && u.nested == t.nested
  {
  }

  lemma CutOfQueued(cells: seq<Cell>, systemPrompt: string, ms: seq<ContextMessage>, keep: nat, c: nat)
    requires Opens(cells, systemPrompt, ms) && |ms| + 1 == keep + c && c > 0 && forall i | 0 <= i < |ms| :: ms[i].role != Tool
    ensures HeadLength(Msgs(cells)) == 1 && CutPoint(Msgs(cells), keep) == c
  {
    if c < |cells| {
      assert Msgs(cells)[c] == ms[c - 1];
    }
  }

  /** With all but the first `k` of what was said left, those are what a save stores. */
  lemma OnlyLast(t: Turn, ms: seq<ContextMessage>, keep: nat, k: nat)
    requires Inv(t) && !t.nested && t.spoken == t.forms == ms && k + keep == |ms| && FirstOnes(t.lost, k)
    ensures LosesAllBut(t, ms, keep)
  {
    TurnIsStored(t);
    LastSurvive(|ms|, t.lost, k);
    assert Recorded(Persist(t), NotLost(t)) == ms[k..];
  }

  lemma QueuedNumbers(cells: seq<Cell>, systemPrompt: string, ms: seq<ContextMessage>, n: nat, persisted: set<nat>)
    requires Opens(cells, systemPrompt, ms) && n <= |ms| && persisted == {0}
    ensures FirstOnes(NumberSet(AgentTurn.Fresh(cells[1..n + 1], persisted)), n)
  {
    var queued := cells[1..n + 1];
    assert forall i | 0 <= i < n :: queued[i] == cells[i + 1];
    FreshAll(queued, persisted);
    NumbersOfSaid(queued);
    forall x: nat
      ensures x in Numbers(queued) <==> x < n
    {
      if x < n {
        assert Numbers(queued)[x] == x;
      }
    }
  }

  lemma {:induction false} LastSurvive(n: nat, lost: set<nat>, k: nat)
    requires k <= n && FirstOnes(lost, k)
    ensures Survivors(n, lost) == seq(n - k, i requires 0 <= i < n - k => k + i)
    decreases n
  {
    if n == k {
      NoneSurvive(n, lost);
    } else {
      LastSurvive(n - 1, lost, k);
    }
  }

  lemma {:induction false} NoneSurvive(n: nat, lost: set<nat>)
    requires forall i | 0 <= i < n :: i in lost
    ensures Survivors(n, lost) == []
  {
    if n > 0 {
      NoneSurvive(n - 1, lost);
    }
  }

  /** One message more than are kept, said before a prompt that is too long is compacted with placeholders: the
      first is stored as its placeholder for good. */
  lemma PlaceholderIsStored(systemPrompt: string, ms: seq<ContextMessage>, env: Env, target: real, keep: nat)
    requires |ms| == keep + 1 && forall m | m in ms :: Bystander(m) && m.role != System
    requires TotalTokens(env, [Plain(System, Text(systemPrompt))] + ms) as real > target
    ensures Persist(After(EmptyTurn(systemPrompt), [Speech(ms), PlaceholderCompaction(env, target, keep)])).rows
         == StoredForms([Compacted(env, ms[0])] + ms[1..])
  {
    FreshTurn(systemPrompt, ms);
    AfterTwo(EmptyTurn(systemPrompt), Speech(ms), PlaceholderCompaction(env, target, keep));
    SaidIsRewritten(Say(EmptyTurn(systemPrompt), ms), systemPrompt, ms, env, target, keep);
  }

  /** In the loop itself: five queued messages, a model call rejected as too long, and no summary. */
  lemma RejectionStoresPlaceholder(systemPrompt: string, queued: seq<string>, ms: seq<ContextMessage>, env: Env) returns (t: Turn, u: Turn)
    requires ms == Users(queued) && |ms| == KEPT_AFTER_REJECTION + 1
    requires TotalTokens(env, [Plain(System, Text(systemPrompt))] + ms) as real > TargetTokens(env, COMPACT_TO)
    ensures t == Steered(EmptyTurn(systemPrompt), queued, None) && u == ContextCompacted(t, env, true, None)
    ensures Persist(u).rows == StoredForms([Compacted(env, ms[0])] + ms[1..])
  {
    var start;
    start, t := QueuedOnFresh(systemPrompt, queued, ms);
    u := Shrink(t, CompactedMessages(env, Msgs(t.cells), TargetTokens(env, COMPACT_TO), KEPT_AFTER_REJECTION));
    SaidIsRewritten(t, systemPrompt, ms, env, TargetTokens(env, COMPACT_TO), KEPT_AFTER_REJECTION);
  }

  lemma SaidIsRewritten(t: Turn, systemPrompt: string, ms: seq<ContextMessage>, env: Env, target: real, keep: nat)
    requires JustSaid(t, systemPrompt, ms) && |ms| == keep + 1 && ms[0].role != System
    requires TotalTokens(env, [Plain(System, Text(systemPrompt))] + ms) as real > target
    ensures Persist(Shrink(t, CompactedMessages(env, Msgs(t.cells), target, keep))).rows
         == StoredForms([Compacted(env, ms[0])] + ms[1..])
  {
    var all := Msgs(t.cells);
    assert all == [Plain(System, Text(systemPrompt))] + ms;
    OnlyCandidateIsVisited(env, all, target, keep, 1);
    var out := CompactedMessages(env, all, target, keep);
    FirstRewritten(env, all, ms, out, target, keep);
    CompactionKeeps(t, env, target, keep);
    AllReformed(t, systemPrompt, ms, out);
    NothingIsLost(Shrink(t, out), out[1..]);
  }

  lemma FirstRewritten(env: Env, all: seq<ContextMessage>, ms: seq<ContextMessage>, out: seq<ContextMessage>, target: real, keep: nat)
    requires |all| == |ms| + 1 == keep + 2 && all[1..] == ms && ms[0].role != System
    requires out == CompactedMessages(env, all, target, keep)
    requires 1 in Visited(CompactionOrder(env, all, keep), CompactionVisits(env, all, target, keep))
    ensures out[1..] == [Compacted(env, ms[0])] + ms[1..]
  {
    var r := [Compacted(env, ms[0])] + ms[1..];
    forall i | 0 <= i < |ms|
      ensures out[1..][i] == r[i]
    {
      assert all[i + 1] == ms[i];
    }
  }

  lemma NothingIsLost(t: Turn, ms: seq<ContextMessage>)
    requires Inv(t) && !t.nested && t.forms == ms && t.lost == {}
    ensures Persist(t).rows == StoredForms(ms)
  {
    var k := 0;
    TurnIsStored(t);
    LastSurvive(|ms|, t.lost, k);
    assert Recorded(Persist(t), NotLost(t)) == ms;
  }

  lemma AllReformed(t: Turn, systemPrompt: string, ms: seq<ContextMessage>, out: seq<ContextMessage>)
    requires Accounted(t) && Opens(t.cells, systemPrompt, ms) && |out| == |ms| + 1 && |t.forms| == |ms| && t.persisted == {0}
    ensures Shrink(t, out).forms == out[1..]
  {
    forall n | 0 <= n < |ms|
      ensures Shrink(t, out).forms[n] == out[1..][n]
    {
      assert t.cells[n + 1].origin == Said(n);
      ShrinkForm(t, out, n + 1, n);
    }
  }

  /** Above the target, compaction rewrites the one candidate that is no system message. */
  lemma OnlyCandidateIsVisited(env: Env, ms: seq<ContextMessage>, target: real, keepLast: nat, j: nat)
    requires j < |ms| - keepLast && TotalTokens(env, ms) as real > target
    requires ms[j].role != System && forall i | 0 <= i < |ms| - keepLast && i != j :: ms[i].role == System
    ensures j in Visited(CompactionOrder(env, ms, keepLast), CompactionVisits(env, ms, target, keepLast))
  {
    CompactionStopsAtTarget(env, ms, target, keepLast);
    OnlyGainIsVisited(env, ms, CompactionOrder(env, ms, keepLast), CompactionVisits(env, ms, target, keepLast), TotalTokens(env, ms), target, j);
  }

  lemma OnlyGainIsVisited(env: Env, ms: seq<ContextMessage>, order: seq<nat>, n: nat, total: int, target: real, j: nat)
    requires Compaction.Within(order, |ms|) && n <= |order| && j in order && total as real > target
    requires n < |order| ==> (total - Gains(env, ms, order, n)) as real <= target
    requires forall i | i in order && i != j :: ms[i].role == System
    ensures j in Visited(order, n)
  {
    assert order[..|order|] == order;
    if j !in order[..n] {
      SystemGainsNothing(env, ms, order, n);
      assert false;
    }
  }

  lemma {:induction false} SystemGainsNothing(env: Env, ms: seq<ContextMessage>, order: seq<nat>, k: nat)
    requires Compaction.Within(order, |ms|) && k <= |order| && forall i | i in order[..k] :: ms[i].role == System
    ensures Gains(env, ms, order, k) == 0
  {
    if k > 0 {
      assert order[k - 1] in order[..k] && forall i | i in order[..k - 1] :: i in order[..k];
      SystemGainsNothing(env, ms, order, k - 1);
    }
  }

  /** A turn that says one thing, saves it at its end, and fails after that: it is stored twice. */
  lemma LateFailureRepeatsReply(systemPrompt: string, reply: ContextMessage)
    requires Bystander(reply) && reply.role != System
    ensures Persist(FinalSave(After(EmptyTurn(systemPrompt), [Speech([reply])]))).rows == [StoredForm(reply), StoredForm(reply)]
  {
    FreshTurn(systemPrompt, [reply]);
    assert [Speech([reply])][1..] == [];
    ReplyIsRepeated(Say(EmptyTurn(systemPrompt), [reply]), systemPrompt, reply);
  }

  lemma ReplyIsRepeated(t: Turn, systemPrompt: string, reply: ContextMessage)
    requires JustSaid(t, systemPrompt, [reply])
    ensures Persist(FinalSave(t)).rows == [StoredForm(reply), StoredForm(reply)]
  {
    var u, ns := SavedAgain(t);
    var k, n := 0, 1;
    LastSurvive(n, t.lost, k);
    assert NotLost(t) == [0] && NotLost(t)[0..] == [0];
    TwiceRecorded(u, ns, reply);
  }

  lemma SavedAgain(t: Turn) returns (u: Turn, ns: seq<nat>)
    requires Inv(t) && !t.nested
    ensures u == Persist(FinalSave(t)) && u.forms == t.forms
    ensures ns == NotLost(t) + NotLost(t)[|Numbers(t.saved)|..] && Holds(u, ns)
  {
    LateFailureStoresTwice(t);
    u, ns := Persist(FinalSave(t)), NotLost(t) + NotLost(t)[|Numbers(t.saved)|..];
  }

  lemma TwiceRecorded(u: Turn, ns: seq<nat>, m: ContextMessage)
    requires Holds(u, ns) && ns == [0, 0] && u.forms == [m]
    ensures u.rows == [StoredForm(m), StoredForm(m)]
  {
    assert Recorded(u, ns) == [m, m];
  }
}
