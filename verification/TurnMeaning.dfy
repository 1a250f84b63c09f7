/** A turn told step by step: what the model is shown, what is said, which counters move, and how the turn ends. */
module TurnMeaning {
  import opened Options
  import opened Conversation
  import opened Compaction
  import opened AgentTurn
  import opened ToolBatch
  import opened BatchMeaning
  import opened TurnPlay
  import opened TurnOutcome

  /** A message that is text and nothing else. */
  ghost predicate Is(m: ContextMessage, role: Role, content: Content) {
    m.role == role && m.content == content && m.toolCalls == [] && m.toolCallId == None && m.toolName == None
  }

  // ---------------------------------------------------------------------------------------------
  // What the model is shown

  ghost function Shown(t: Turn): seq<ContextMessage> { Msgs(t.cells) }

  /** What is said is shown behind the rest. */
  lemma SayingShows(t: Turn, ms: seq<ContextMessage>)
    ensures Shown(Say(t, ms)) == Shown(t) + ms
  {
  }

  /** So is a reminder, as a message of the user's. */
  lemma RemindingShows(t: Turn, text: string)
    ensures |Shown(Remind(t, text))| == |Shown(t)| + 1
    ensures Shown(Remind(t, text))[..|Shown(t)|] == Shown(t) && Is(Shown(Remind(t, text))[|Shown(t)|], User, Text(text))
  {
    var u := Remind(t, text);
    assert forall i | 0 <= i < |t.cells| :: u.cells[i] == t.cells[i];
  }

  /** A summary, as a message of the user's, stands for what is between the system prompt and the last place
      where the history may be cut. */
  ghost predicate ShowsSummary(before: seq<ContextMessage>, after: seq<ContextMessage>, preserveLastN: nat, summary: string) {
    exists c: nat :: MayCut(before, preserveLastN, c) && (forall b: nat | MayCut(before, preserveLastN, b) :: b <= c) &&
      SummaryAt(before, after, if before != [] && before[0].role.System? then 1 else 0, c, summary)
  }

  ghost predicate SummaryAt(before: seq<ContextMessage>, after: seq<ContextMessage>, h: nat, c: nat, summary: string) {
    && h <= c <= |before| && |after| == h + 1 + |before| - c
    && after[..h] == before[..h] && Is(after[h], User, Text(summary)) && after[h + 1..] == before[c..]
  }

  lemma SummarizingShows(t: Turn, preserveLastN: nat, summary: string)
    ensures FindsSpan(Shown(t), preserveLastN) ==> ShowsSummary(Shown(t), Shown(Summarize(t, preserveLastN, summary)), preserveLastN, summary)
    ensures !FindsSpan(Shown(t), preserveLastN) ==> Summarize(t, preserveLastN, summary) == t
  {
    var before, h, c := Shown(t), HeadLength(Shown(t)), CutPoint(Shown(t), preserveLastN);
    SplitSays(before, preserveLastN);
    if FindsSpan(before, preserveLastN) {
      EvictingShows(t, h, c, summary);
      assert MayCut(before, preserveLastN, c);
    }
  }

  lemma EvictingShows(t: Turn, h: nat, c: nat, summary: string)
    requires h <= c <= |t.cells|
    ensures SummaryAt(Shown(t), Shown(Evict(t, h, c, summary)), h, c, summary)
  {
    var after := Shown(Evict(t, h, c, summary));
    assert after[..h] == Shown(t)[..h];
    assert after[h + 1..] == Shown(t)[c..];
  }

  /** Placeholder compaction shows what it returns; saving changes nothing that is shown. */
  lemma ShrinkingShows(t: Turn, ms: seq<ContextMessage>)
    requires |ms| == |t.cells|
    ensures Shown(Shrink(t, ms)) == ms
  {
  }

  lemma SavingShows(t: Turn)
    ensures Shown(Persist(t)) == Shown(t) && Shown(FinalSave(t)) == Shown(t)
  {
  }

  // ---------------------------------------------------------------------------------------------
  // Compaction

  /** Sixty percent of the window, and forty. */
  lemma SharesOfWindow(env: Env, ms: seq<ContextMessage>)
    ensures ShouldCompact(env, ms, COMPACT_AT) <==> 10 * TotalTokens(env, ms) > 6 * env.window
    ensures ShouldCompact(env, ms, COMPACT_TO) <==> 10 * TotalTokens(env, ms) > 4 * env.window
    ensures TargetTokens(env, COMPACT_TO) == (4 * env.window) as real / 10.0
  {
  }

  ghost predicate HasSpan(ms: seq<ContextMessage>, preserveLastN: nat) {
    exists c: nat :: MayCut(ms, preserveLastN, c) && c >= (if ms != [] && ms[0].role.System? then 5 else 4)
  }

  lemma SpanFound(ms: seq<ContextMessage>, preserveLastN: nat)
    ensures FindsSpan(ms, preserveLastN) <==> HasSpan(ms, preserveLastN)
  {
    SplitSays(ms, preserveLastN);
  }

  /** The state between the two ways of compacting. */
  lemma PlaceholdersShow(t: Turn, s: Turn, env: Env, force: bool, summary: Option<string>, summarized: bool)
    requires summarized == (summary.Some? && FindsSpan(Shown(t), KeepLast(force)))
    requires s == if summarized then Summarize(t, KeepLast(force), summary.value) else t
    ensures Shown(ContextCompacted(t, env, force, summary))
         == if summarized && !(force && ShouldCompact(env, Shown(s), COMPACT_TO)) then Shown(s)
            else CompactedMessages(env, Shown(s), TargetTokens(env, COMPACT_TO), KeepLast(force))
  {
    ShrinkingShows(s, CompactedMessages(env, Shown(s), TargetTokens(env, COMPACT_TO), KeepLast(force)));
  }

  /** Before a call eight messages are kept, after a rejected prompt four. */
  lemma MessagesKept(force: bool)
    ensures KeepLast(force) == if force then 4 else 8
  {
  }

  /** A summary replaces what it covers, if there is one and enough to cover; placeholders are put in without
      one, and after a rejection also if the history is still above its share of the window. */
  lemma CompactingShows(t: Turn, env: Env, force: bool, summary: Option<string>, keep: nat, summarized: bool) returns (s: Turn)
    requires keep == KeepLast(force) && (summarized <==> summary.Some? && HasSpan(Shown(t), keep))
    ensures if summarized then ShowsSummary(Shown(t), Shown(s), keep, summary.value) else s == t
    ensures Shown(ContextCompacted(t, env, force, summary))
         == if summarized && !(force && ShouldCompact(env, Shown(s), COMPACT_TO)) then Shown(s)
            else CompactedMessages(env, Shown(s), TargetTokens(env, COMPACT_TO), keep)
  {
    SpanFound(Shown(t), keep);
    s := if summarized then Summarize(t, keep, summary.value) else t;
    if summarized {
      SummarizingShows(t, keep, summary.value);
    }
    PlaceholdersShow(t, s, env, force, summary, summarized);
  }

  // ---------------------------------------------------------------------------------------------
  // Challenges

  ghost function Made(nudges: map<NudgeKind, nat>, kind: NudgeKind): nat { if kind in nudges then nudges[kind] else 0 }

  /** Of a reply without tool calls: the challenge made is the first that applies and was not made as often
      as it may: tool calls written as text three times, no action once, no verification twice, a failed
      one once, a hook that objects twice. */
  lemma FirstChallenge(v: Verdicts, nudges: map<NudgeKind, nat>)
    ensures var a := v.textToolCall && Made(nudges, TextToolCall) < 3;
            var b := v.noAction && Made(nudges, NoAction) < 1;
            var c := v.unverified && Made(nudges, Unverified) < 2;
            var d := v.failedVerification && Made(nudges, FailedVerification) < 1;
            var e := v.stopHook && Made(nudges, StopHook) < 2;
            && (Fires(v, nudges) == Some(TextToolCall) <==> a)
            && (Fires(v, nudges) == Some(NoAction) <==> !a && b)
            && (Fires(v, nudges) == Some(Unverified) <==> !a && !b && c)
            && (Fires(v, nudges) == Some(FailedVerification) <==> !a && !b && !c && d)
            && (Fires(v, nudges) == Some(StopHook) <==> !a && !b && !c && !d && e)
            && (Fires(v, nudges) == None <==> !a && !b && !c && !d && !e)
  {
  }

  // ---------------------------------------------------------------------------------------------
  // Steps

  /** What is queued is said first, one message of the user's each. */
  ghost predicate SaysQueued(more: seq<ContextMessage>, queued: seq<string>) {
    |more| >= |queued| && forall k | 0 <= k < |queued| :: Is(more[k], User, Text(queued[k]))
  }

  /** An answer, and what the loop asks for next. */
  ghost predicate SaysExchange(ms: seq<ContextMessage>, answer: Content, request: string) {
    |ms| == 2 && Is(ms[0], Assistant, answer) && Is(ms[1], User, Text(request))
  }

  /** The calls whose results come later. */
  ghost function Later(calls: seq<ToolCall>, outcomes: seq<Outcome>): set<nat>
    requires |outcomes| == |calls|
  {
    set i | 0 <= i < |calls| && ComesLater(calls, outcomes[i])
  }

  /** A batch passes a moment for every call and one for every result that comes later. */
  ghost predicate EndsEarly(calls: seq<ToolCall>, outcomes: seq<Outcome>, stopAt: nat)
    requires |outcomes| == |calls|
  {
    stopAt < |calls| + |Later(calls, outcomes)|
  }

  lemma MomentsCounted(calls: seq<ToolCall>, outcomes: seq<Outcome>, stopAt: nat)
    requires |outcomes| == |calls|
    ensures BatchIsCut(calls, outcomes, stopAt) <==> EndsEarly(calls, outcomes, stopAt)
  {
    var order := Collected(outcomes, Parallel(calls));
    CollectedInOrder(outcomes, Parallel(calls));
    var done := FirstOnesCounted(order, |order|);
    assert order[..|order|] == order;
    forall i
      ensures i in done <==> i in Later(calls, outcomes)
    {
      if 0 <= i < |calls| {
        ComingLater(calls, outcomes[i]);
      }
    }
    assert done == Later(calls, outcomes);
  }

  /** What the reply of a step adds. */
  ghost predicate SaysReply(ms: seq<ContextMessage>, c: Control, reply: Reply) {
    match reply
    case Aborted(_) => ms == []
    case Rejected(_, _, _) => ms == []
    case CutOff(text, request, _) => if c.truncations >= 3 then ms == [] else SaysExchange(ms, text, request)
    case Finished(text, verdicts, request) =>
      if Fires(verdicts, c.nudges) != None then SaysExchange(ms, text, request)
      else if text == NoContent then ms == []
      else |ms| == 1 && Is(ms[0], Assistant, text)
    case ToolUse(content, calls, outcomes, stopAt, _, _) => SaysBatch(ms, content, calls, outcomes, stopAt)
  }

  ghost predicate SaysBatch(ms: seq<ContextMessage>, content: Content, calls: seq<ToolCall>, outcomes: seq<Outcome>, stopAt: nat) {
    |outcomes| == |calls| &&
    if EndsEarly(calls, outcomes, stopAt) then exists done :: ReadsAsCut(ms, content, calls, outcomes, stopAt, done)
    else exists at :: ReadsAsBatch(ms, content, calls, outcomes, at)
  }

  lemma BatchSpeaks(content: Content, calls: seq<ToolCall>, outcomes: seq<Outcome>, stopAt: nat, ms: seq<ContextMessage>)
    requires |outcomes| == |calls|
    requires ms == if BatchIsCut(calls, outcomes, stopAt) then CutBatch(CutOf(content, calls, outcomes, stopAt)) else WholeBatch(content, calls, outcomes)
    ensures SaysBatch(ms, content, calls, outcomes, stopAt)
  {
    MomentsCounted(calls, outcomes, stopAt);
    if BatchIsCut(calls, outcomes, stopAt) {
      var done := CutBatchReads(content, calls, outcomes, stopAt, ms);
    } else {
      var at := WholeBatchReads(content, calls, outcomes, ms);
    }
  }

  lemma ReplySpeaks(c: Control, s: Step)
    ensures SaysReply(ReplySays(c, s), c, s.reply)
  {
    if s.reply.ToolUse? {
      BatchSpeaks(s.reply.content, s.reply.calls, s.reply.outcomes, s.reply.stopAt, ReplySays(c, s));
    }
  }

  /** Everything a step says: nothing once the run is cancelled or the time is up; else what is queued, and what
      the reply adds, unless compacting before the call fails. */
  ghost predicate SaysStep(said: seq<ContextMessage>, c: Control, s: Step, fails: bool) {
    if s.cancelled || s.timeUp then said == []
    else |said| >= |s.queued| && SaysQueued(said, s.queued) &&
         if fails then |said| == |s.queued| else SaysReply(said[|s.queued|..], c, s.reply)
  }

  lemma QueuedSpeak(c: Control, s: Step, fails: bool)
    ensures SaysStep(StepSays(c, s, fails), c, s, fails)
  {
    if !s.cancelled && !s.timeUp {
      var reply := if fails then [] else ReplySays(c, s);
      ReplySpeaks(c, s);
      QueuedFirst(s.queued, reply);
      assert (Users(s.queued) + reply)[|s.queued|..] == reply;
    }
  }

  lemma QueuedFirst(queued: seq<string>, reply: seq<ContextMessage>)
    ensures SaysQueued(Users(queued) + reply, queued)
  {
    forall k | 0 <= k < |queued|
      ensures Is((Users(queued) + reply)[k], User, Text(queued[k]))
    {
      assert (Users(queued) + reply)[k] == Users(queued)[k];
    }
  }

  lemma StepSpeaks(c: Control, t: Turn, s: Step, env: Env, maxSteps: nat, handlerOk: bool, fails: bool) returns (said: seq<ContextMessage>)
    requires fails == PrepareFails(t, s, c.step == maxSteps - BUDGET_WARNING_STEPS + 1, env)
    ensures Stepped(c, t, s, env, maxSteps, handlerOk).t.spoken == t.spoken + said
    ensures SaysStep(said, c, s, fails) && (fails ==> s.compaction.Interrupted?)
  {
    said := StepSays(c, s, fails);
    SteppedSays(c, t, s, env, maxSteps, handlerOk);
    QueuedSpeak(c, s, fails);
  }

  // ---------------------------------------------------------------------------------------------
  // Where a step leads

  /** How the end of a turn reads: cancelled by the user, or failed. */
  ghost predicate EndsFor(f: Flow, cause: Interrupt) {
    f.Ended? && f.cut == None && f.reason == match cause case Cancellation => UserCancelled case Exception => Error
  }

  /** The loop goes on, with these counters. */
  ghost predicate GoesOn(f: Flow, c: Control, truncations: nat, llmRetries: nat, contextRetries: nat) {
    f.Going? && f.c == Control(c.step, truncations, llmRetries, contextRetries, c.nudges)
  }

  /** And with one challenge more. */
  ghost predicate GoesOnChallenged(f: Flow, c: Control, kind: NudgeKind) {
    f.Going? && f.c.(nudges := c.nudges) == Control(c.step, 0, 0, c.contextRetries, c.nudges) &&
    forall k: NudgeKind :: Made(f.c.nudges, k) == Made(c.nudges, k) + if k == kind then 1 else 0
  }

  /** Where the outcome of the model call leads. */
  ghost predicate LeadsTo(c: Control, t: Turn, reply: Reply, env: Env, f: Flow) {
    match reply
    case Aborted(cause) => EndsFor(f, cause)
    case Rejected(tooLong, recovery, cause) => LeadsBack(c, t, tooLong, recovery, cause, env, f)
    case CutOff(_, _, cause) =>
      if c.truncations >= 3 then EndsFor(f, cause) else GoesOn(f, c, c.truncations + 1, 0, c.contextRetries)
    case Finished(_, verdicts, _) =>
      if Fires(verdicts, c.nudges) == None then f.Leaving? && f.reason == Completed
      else GoesOnChallenged(f, c, Fires(verdicts, c.nudges).value)
    case ToolUse(_, calls, outcomes, stopAt, stop, _) =>
      |outcomes| == |calls| &&
      if EndsEarly(calls, outcomes, stopAt) then StopsFor(f, stop) else GoesOn(f, c, 0, 0, c.contextRetries)
  }

  ghost predicate StopsFor(f: Flow, stop: BatchStop) {
    f.Ended? && f.cut.Some? &&
    f.reason == match stop case CancelRunChosen => RunCancelled case Stopped(Cancellation) => UserCancelled case Stopped(Exception) => Error
  }

  /** A failed call: a prompt that was too long is compacted and tried again three times at most, if that has
      shrunk it; any other failure is waited out five times at most. */
  ghost predicate LeadsBack(c: Control, t: Turn, tooLong: bool, recovery: Attempt, cause: Interrupt, env: Env, f: Flow) {
    if tooLong && c.contextRetries < 3 then
      if recovery.Interrupted? then EndsFor(f, recovery.cause)
      else if TotalTokens(env, Shown(f.t)) < TotalTokens(env, Shown(t)) then GoesOn(f, c, c.truncations, c.llmRetries, c.contextRetries + 1)
      else EndsFor(f, cause)
    else if c.llmRetries >= 5 then EndsFor(f, cause)
    else if recovery.Interrupted? then EndsFor(f, recovery.cause)
    else GoesOn(f, c, c.truncations, c.llmRetries + 1, c.contextRetries) && f.t == t
  }

  lemma HandlingShows(reason: Reason, t: Turn, handlerOk: bool)
    ensures Shown(Handled(reason, t, handlerOk).t) == Shown(t)
  {
    SavingShows(t);
  }

  lemma RecoveryLeads(c: Control, t: Turn, tooLong: bool, recovery: Attempt, env: Env, cause: Interrupt, handlerOk: bool)
    ensures LeadsBack(c, t, tooLong, recovery, cause, env, Recovered(c, t, tooLong, recovery, env, cause, handlerOk))
  {
    if tooLong && c.contextRetries < 3 && !recovery.Interrupted? {
      HandlingShows(InterruptReason(cause), ContextCompacted(t, env, true, SummaryText(recovery)), handlerOk);
    }
  }

  lemma ReplyLeads(c: Control, t: Turn, reply: Reply, env: Env, handlerOk: bool)
    requires reply.ToolUse? ==> |reply.outcomes| == |reply.calls|
    ensures LeadsTo(c, t, reply, env, Answered(c, t, reply, env, handlerOk))
  {
    if reply.Rejected? {
      RecoveryLeads(c, t, reply.tooLong, reply.recovery, env, reply.cause, handlerOk);
    } else if reply.ToolUse? {
      MomentsCounted(reply.calls, reply.outcomes, reply.stopAt);
    }
  }

  /** Before the call: what is queued is shown, and a reminder in the step that leaves five steps with itself. */
  ghost predicate ShowsSteered(before: seq<ContextMessage>, after: seq<ContextMessage>, queued: seq<string>, notice: string, step: nat, maxSteps: nat) {
    && |after| == |before| + |queued| + (if step + 4 == maxSteps then 1 else 0)
    && before <= after
    && (forall k | 0 <= k < |queued| :: Is(after[|before| + k], User, Text(queued[k])))
    && (step + 4 == maxSteps ==> Is(after[|after| - 1], User, Text(notice)))
  }

  lemma SteeringShows(t: Turn, s: Step, step: nat, maxSteps: nat, warn: bool)
    requires warn <==> step == maxSteps - BUDGET_WARNING_STEPS + 1
    ensures ShowsSteered(Shown(t), Shown(Steered(t, s.queued, Warning(s, warn))), s.queued, s.notice, step, maxSteps)
  {
    var queued := s.queued;
    var u := Say(t, Users(queued));
    SayingShows(t, Users(queued));
    forall k | 0 <= k < |queued|
      ensures Is(Shown(u)[|Shown(t)| + k], User, Text(queued[k]))
    {
      assert Shown(u)[|Shown(t)| + k] == Users(queued)[k];
    }
    if warn {
      RemindingShows(u, s.notice);
      var v := Shown(Remind(u, s.notice));
      assert forall k | 0 <= k < |Shown(u)| :: v[k] == v[..|Shown(u)|][k];
    }
  }

  /** Then it is compacted, if it is above sixty percent of the window. */
  lemma PreparingShows(t: Turn, s: Step, env: Env, step: nat, maxSteps: nat, warn: bool) returns (u: Turn)
    requires warn <==> step == maxSteps - BUDGET_WARNING_STEPS + 1
    ensures ShowsSteered(Shown(t), Shown(u), s.queued, s.notice, step, maxSteps)
    ensures PrepareFails(t, s, warn, env) <==> 10 * TotalTokens(env, Shown(u)) > 6 * env.window && s.compaction.Interrupted?
    ensures Prepared(t, s, warn, env)
         == if 10 * TotalTokens(env, Shown(u)) > 6 * env.window && !s.compaction.Interrupted?
            then ContextCompacted(u, env, false, match s.compaction case Summary(text) => Some(text) case _ => None) else u
  {
    u := Steered(t, s.queued, Warning(s, warn));
    SteeringShows(t, s, step, maxSteps, warn);
    SharesOfWindow(env, Shown(u));
  }

  /** Where a step leads: cancelled and timed-out runs end before the call, a compaction that is interrupted
      ends the turn, and everything else is decided by the reply. */
  lemma StepLeads(c: Control, t: Turn, s: Step, env: Env, maxSteps: nat, handlerOk: bool, u: Turn, fails: bool, f: Flow)
    requires f == Stepped(c, t, s, env, maxSteps, handlerOk)
    requires u == Prepared(t, s, c.step == maxSteps - BUDGET_WARNING_STEPS + 1, env)
    requires fails == PrepareFails(t, s, c.step == maxSteps - BUDGET_WARNING_STEPS + 1, env)
    ensures s.cancelled ==> EndsFor(f, Cancellation)
    ensures !s.cancelled && s.timeUp ==> f == Leaving(Timeout, t)
    ensures !s.cancelled && !s.timeUp && fails ==> s.compaction.Interrupted? && EndsFor(f, s.compaction.cause)
    ensures !s.cancelled && !s.timeUp && !fails ==> LeadsTo(c, u, s.reply, env, f)
  {
    ReplyLeads(c, u, s.reply, env, handlerOk);
  }

  // ---------------------------------------------------------------------------------------------
  // The loop

  /** The states in which the steps of a loop are entered, one after the other, from the first on. */
  ghost predicate Follow(next: (Control, Turn, Step) -> Flow, states: seq<(Control, Turn)>, script: seq<Step>, maxSteps: nat) {
    && states != [] && states[0].0.step >= 1
    && forall k | 0 <= k < |states| - 1 :: LeadsNext(next, states[k], states[k + 1], script, maxSteps)
  }

  ghost predicate LeadsNext(next: (Control, Turn, Step) -> Flow, p: (Control, Turn), q: (Control, Turn), script: seq<Step>, maxSteps: nat) {
    && 1 <= p.0.step <= maxSteps <= |script|
    && next(p.0, p.1, script[p.0.step - 1]).Going?
    && q.1 == next(p.0, p.1, script[p.0.step - 1]).t
    && q.0 == next(p.0, p.1, script[p.0.step - 1]).c.(step := p.0.step + 1)
  }

  /** How a loop ends in its last state: by the step entered there, or because none is left. */
  ghost predicate EndsIn(next: (Control, Turn, Step) -> Flow, p: (Control, Turn), script: seq<Step>, maxSteps: nat, f: Flow) {
    maxSteps <= |script| && p.0.step >= 1 &&
    if p.0.step > maxSteps then f == Leaving(MaxSteps, p.1)
    else f == next(p.0, p.1, script[p.0.step - 1]) && !f.Going?
  }

  /** A loop takes its steps one after the other, with the script's inputs, until one ends it or none is left. */
  lemma {:induction false} LoopTakesSteps(next: (Control, Turn, Step) -> Flow, c: Control, t: Turn, script: seq<Step>, maxSteps: nat)
    returns (states: seq<(Control, Turn)>)
    requires maxSteps <= |script| && c.step >= 1
    ensures Follow(next, states, script, maxSteps) && states[0] == (c, t)
    ensures EndsIn(next, states[|states| - 1], script, maxSteps, Looped(next, c, t, script, maxSteps))
    decreases maxSteps + 1 - c.step
  {
    states := [(c, t)];
    if c.step <= maxSteps {
      var f := next(c, t, script[c.step - 1]);
      if f.Going? {
        var rest := LoopTakesSteps(next, NextStep(f.c, c.step), f.t, script, maxSteps);
        assert LeadsNext(next, (c, t), rest[0], script, maxSteps);
        states := [(c, t)] + rest;
      }
    }
  }

  /** It starts with the first step and all counters at nothing. */
  lemma LoopStarts()
    ensures FIRST == Control(1, 0, 0, 0, map[])
  {
  }

  // ---------------------------------------------------------------------------------------------
  // The turn

  /** The reminders with which a turn opens, and after them what the upfront plan adds. */
  ghost predicate ShowsOpening(before: seq<ContextMessage>, after: seq<ContextMessage>, notes: seq<string>, plan: seq<string>) {
    && |after| == |before| + |notes| + 2 * |plan| && before <= after
    && (forall k | 0 <= k < |notes| :: Is(after[|before| + k], User, Text(notes[k])))
    && (plan != [] ==> Is(after[|before| + |notes|], Assistant, Text(plan[0])) && Is(after[|before| + |notes| + 1], User, Text(EXECUTE_PLAN)))
  }

  ghost function Given(text: Option<string>): seq<string> { if text.Some? then [text.value] else [] }

  lemma NoteShows(t: Turn, text: Option<string>)
    ensures |Shown(RemindIf(t, text))| == |Shown(t)| + |Given(text)| && Shown(t) <= Shown(RemindIf(t, text))
    ensures text.Some? ==> Is(Shown(RemindIf(t, text))[|Shown(t)|], User, Text(text.value))
  {
    if text.Some? {
      RemindingShows(t, text.value);
      assert Shown(t) == Shown(Remind(t, text.value))[..|Shown(t)|];
    }
  }

  lemma NotesShow(t: Turn, a: Option<string>, b: Option<string>, c: Option<string>) returns (u: Turn)
    ensures u == RemindIf(RemindIf(RemindIf(t, a), b), c)
    ensures ShowsOpening(Shown(t), Shown(u), Given(a) + Given(b) + Given(c), [])
  {
    var v := RemindIf(t, a);
    var w := RemindIf(v, b);
    u := RemindIf(w, c);
    NoteShows(t, a);
    NoteShows(v, b);
    NoteShows(w, c);
  }

  /** A turn whose prompt passes opens with the unfinished plan, the open file and what hooks print, then the
      plan made upfront, and goes through the loop from there. */
  lemma OpeningShows(t: Turn, o: Opening, script: seq<Step>, env: Env, maxSteps: nat, ending: Ending) returns (u: Turn)
    requires maxSteps <= |script| && o.promptHook.Passed? && !o.planning.PlanningStopped?
    ensures Played(t, o, script, env, maxSteps, ending) == Ran(u, script, env, maxSteps, ending)
    ensures ShowsOpening(Shown(t), Shown(u), Given(o.plan) + Given(o.openFile) + Given(o.session), match o.planning case Plan(text) => [text] case _ => [])
  {
    u := NotesShow(t, o.plan, o.openFile, o.session);
    if o.planning.Plan? {
      var v := Say(u, Exchange(Text(o.planning.text), EXECUTE_PLAN));
      SayingShows(u, Exchange(Text(o.planning.text), EXECUTE_PLAN));
      assert forall k | 0 <= k < |Shown(u)| :: Shown(v)[k] == Shown(u)[k];
      assert Shown(v)[|Shown(u)|] == Exchange(Text(o.planning.text), EXECUTE_PLAN)[0];
      assert Shown(v)[|Shown(u)| + 1] == Exchange(Text(o.planning.text), EXECUTE_PLAN)[1];
      u := v;
    }
  }

  /** How a turn ends that does not come to the loop: blocked with nothing saved, or stopped with what there is. */
  lemma OpeningEnds(t: Turn, o: Opening, script: seq<Step>, env: Env, maxSteps: nat, ending: Ending, e: End)
    requires maxSteps <= |script| && e == Played(t, o, script, env, maxSteps, ending)
    ensures o.promptHook.Blocked? ==> e.reason == PromptBlocked && e.cut == None && !e.twice && e.turn.rows == t.rows
    ensures o.promptHook.HookStopped? ==> EndsFor(Ended(e.reason, e.turn, e.cut), o.promptHook.cause) && !e.twice
    ensures o.promptHook.Passed? && o.planning.PlanningStopped? ==> EndsFor(Ended(e.reason, e.turn, e.cut), o.planning.cause) && !e.twice
  {
  }

  /** How a turn ends that has left the loop: for the reason it left for if the final save and what follows
      it succeed, else cancelled or failed; and whether messages are stored twice. */
  lemma ConcludingSays(reason: Reason, t: Turn, ending: Ending, e: End)
    requires e == Concluded(reason, t, ending)
    ensures ending.saveOk && !ending.lateFailure ==> e.reason == reason
    ensures !(ending.saveOk && !ending.lateFailure) ==> e.reason == match ending.cause case Cancellation => UserCancelled case Exception => Error
    ensures e.cut == None && Shown(e.turn) == Shown(t)
    ensures e.twice ==> ending.saveOk && ending.lateFailure && ending.handlerOk && !t.nested
  {
    SavingShows(t);
    SavingShows(FinalSave(t));
  }

  /** Which endings save everything: those that leave the loop, and those the handler saves; not the answer
      "Cancel Run", nor a blocked prompt. */
  lemma EndingsThatSave(reason: Reason, handlerOk: bool)
    ensures SavedAll(reason, handlerOk) <==>
            reason in {Completed, MaxSteps, Timeout} || (reason in {UserCancelled, Error} && handlerOk)
  {
  }

  lemma RunEnds(t: Turn, script: seq<Step>, env: Env, maxSteps: nat, ending: Ending, f: Flow, e: End)
    requires maxSteps <= |script| && f == Looped(Stepper(env, maxSteps, ending.handlerOk), FIRST, t, script, maxSteps)
    requires e == Ran(t, script, env, maxSteps, ending)
    ensures f.Ended? ==> e == End(f.reason, f.t, f.cut, false)
    ensures f.Leaving? ==> e == Concluded(f.reason, f.t, ending)
  {
  }
}
