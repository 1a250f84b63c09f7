/** What a turn stores, for every input: every step keeps the invariant, and every way out of the turn
    leaves exactly the rows it should. */
module TurnOutcome {
  import opened Options
  import opened Sequences
  import opened Conversation
  import opened Compaction
  import opened MessageTable
  import opened AgentTurn
  import opened TurnSafety
  import opened ToolBatch
  import opened TurnPlay

  ghost predicate GoodEnd(e: End, handlerOk: bool) { Stores(e, handlerOk) && StoresPaired(e, handlerOk) }

  // ---------------------------------------------------------------------------------------------
  // Ends between batches

  lemma SomeStored(t: Turn)
    requires Inv(t)
    ensures HoldsSome(t) && WellPaired(t.rows) && Increasing(NotLost(t))
  {
    NothingStoredTwice(t);
    SurvivorsIncrease(|t.spoken|, t.lost);
    var k := |Numbers(t.saved)|;
    assert Numbers(t.saved) == NotLost(t)[..k];
    assert Holds(t, NotLost(t)[..k]);
  }

  lemma UnsavedEnd(reason: Reason, t: Turn, handlerOk: bool)
    requires Inv(t) && !SavedAll(reason, handlerOk)
    ensures GoodEnd(End(reason, t, None, false), handlerOk)
  {
    SomeStored(t);
  }

  /** The error and cancellation handler, outside a batch. */
  lemma HandledEnd(reason: Reason, t: Turn, handlerOk: bool)
    requires Inv(t) && (reason == UserCancelled || reason == Error)
    ensures GoodEnd(End(reason, PersistIf(t, handlerOk), None, false), handlerOk)
  {
    if handlerOk && !t.nested {
      TurnIsStored(t);
    } else {
      SomeStored(t);
    }
  }

  // ---------------------------------------------------------------------------------------------
  // Ends inside a batch

  lemma CutShortEnd(t: Turn, cut: Cut, stop: BatchStop, handlerOk: bool)
    requires Inv(t) && |cut.results| <= |cut.calls|
    ensures var f := CutShort(t, cut, stop, handlerOk); GoodEnd(End(f.reason, f.t, f.cut, false), handlerOk)
  {
    var u := Say(t, CutBatch(cut));
    if !stop.CancelRunChosen? && handlerOk && !t.nested {
      CutBatchIsStored(t, cut.content, cut.calls, cut.results);
    } else {
      CutUnsaved(t, cut);
    }
  }

  /** Rows of before the batch stay what they are. */
  lemma CutUnsaved(t: Turn, cut: Cut)
    requires Inv(t) && |cut.results| <= |cut.calls|
    ensures HoldsSome(Say(t, CutBatch(cut))) && WellPaired(Say(t, CutBatch(cut)).rows) && Increasing(NotLost(Say(t, CutBatch(cut))))
  {
    var u := Say(t, CutBatch(cut));
    NothingStoredTwice(t);
    SurvivorsExtend(|t.spoken|, |CutBatch(cut)|, t.lost);
    SurvivorsIncrease(|u.spoken|, u.lost);
    var k := |Numbers(t.saved)|;
    assert NotLost(u)[..k] == Numbers(t.saved);
    assert Recorded(u, NotLost(u)[..k]) == Recorded(t, Numbers(t.saved));
    assert Holds(u, NotLost(u)[..k]);
  }

  /** A turn that ends inside a batch has the batch in the table exactly when it is the error handler that
      ends it and its save succeeds. The "Cancel Run" answer to an approval returns without that save. */
  lemma CancelRunSkipsSave(t: Turn, cut: Cut, stop: BatchStop, handlerOk: bool) returns (u: Turn)
    requires Inv(t) && |cut.results| <= |cut.calls|
    ensures u == CutShort(t, cut, stop, handlerOk).t && |t.spoken| in NotLost(u)
    ensures u.rows != t.rows <==> !stop.CancelRunChosen? && handlerOk && !t.nested
    ensures u.rows != t.rows ==> HoldsCut(u, cut)
  {
    var said := Say(t, CutBatch(cut));
    u := CutShort(t, cut, stop, handlerOk).t;
    SurvivorsMember(|said.spoken|, said.lost, |t.spoken|);
    if !stop.CancelRunChosen? && handlerOk && !t.nested {
      CutBatchIsStored(t, cut.content, cut.calls, cut.results);
      MoreIsStored(t, u, cut);
    }
  }

  lemma MoreIsStored(t: Turn, u: Turn, cut: Cut)
    requires Inv(t) && |cut.results| <= |cut.calls| && HoldsCut(u, cut)
    requires u.lost == t.lost && |u.spoken| == |t.spoken| + 1 + |cut.results|
    ensures |u.rows| > |t.rows|
  {
    NothingStoredTwice(t);
    SurvivorsExtend(|t.spoken|, 1 + |cut.results|, t.lost);
    StoredFormsAppend(Recorded(u, NotLost(u)), Unanswered(cut.calls, cut.results));
  }

  // ---------------------------------------------------------------------------------------------
  // Steps

  lemma SpeechKeeps(t: Turn, ms: seq<ContextMessage>)
    requires Inv(t) && forall i | 0 <= i < |ms| :: Bystander(ms[i]) && ms[i].role != System
    ensures Inv(Say(t, ms)) && (Presentable(t) ==> Presentable(Say(t, ms)))
  {
    BystandersArePaired(ms);
    SayKeeps(t, ms);
  }

  lemma BatchKeeps(t: Turn, content: Content, calls: seq<ToolCall>, outcomes: seq<Outcome>, dbOk: bool)
    requires Inv(t) && |outcomes| == |calls|
    ensures Inv(PersistIf(Say(t, WholeBatch(content, calls, outcomes)), dbOk))
    ensures Presentable(t) ==> Presentable(PersistIf(Say(t, WholeBatch(content, calls, outcomes)), dbOk))
  {
    NextKeeps(t, Batch(content, calls, Results(outcomes), AttachedImages(outcomes, |calls|), dbOk));
  }

  lemma SteeredKeeps(t: Turn, queued: seq<string>, warning: Option<string>)
    requires Inv(t)
    ensures Inv(Steered(t, queued, warning)) && (Presentable(t) ==> Presentable(Steered(t, queued, warning)))
    ensures Steered(t, queued, warning).spoken == t.spoken + Users(queued)
    ensures Steered(t, queued, warning).rows == t.rows && Steered(t, queued, warning).nested == t.nested
  {
    SpeechKeeps(t, Users(queued));
    RemindIfKeeps(Say(t, Users(queued)), warning);
  }

  lemma PreparedKeeps(t: Turn, s: Step, warn: bool, env: Env)
    requires Inv(t)
    ensures Inv(Prepared(t, s, warn, env)) && (Presentable(t) ==> Presentable(Prepared(t, s, warn, env)))
    ensures Prepared(t, s, warn, env).spoken == t.spoken + Users(s.queued)
    ensures Prepared(t, s, warn, env).rows == t.rows && Prepared(t, s, warn, env).nested == t.nested
  {
    SteeredKeeps(t, s.queued, Warning(s, warn));
    ContextCompactedKeeps(Steered(t, s.queued, Warning(s, warn)), env, false, SummaryText(s.compaction));
  }

  /** A flow that goes on keeps the invariant; one that ends the turn stores what it should. */
  ghost predicate GoodFlow(t: Turn, f: Flow, handlerOk: bool) {
    && f.t.nested == t.nested && (t.nested ==> f.t.rows == t.rows)
    && (!f.Ended? ==> Inv(f.t) && (Presentable(t) ==> Presentable(f.t)))
    && (f.Ended? ==> GoodEnd(End(f.reason, f.t, f.cut, false), handlerOk))
  }

  lemma RecoveredKeeps(c: Control, t: Turn, tooLong: bool, recovery: Attempt, env: Env, cause: Interrupt, handlerOk: bool)
    requires Inv(t)
    ensures GoodFlow(t, Recovered(c, t, tooLong, recovery, env, cause, handlerOk), handlerOk)
  {
    if tooLong && c.contextRetries < MAX_CONTEXT_RETRIES {
      CompactingKeeps(c, t, recovery, env, cause, handlerOk);
    } else if c.llmRetries >= MAX_LLM_RETRIES {
      HandledFlow(InterruptReason(cause), t, handlerOk);
    } else if recovery.Interrupted? {
      HandledFlow(InterruptReason(recovery.cause), t, handlerOk);
    }
  }

  lemma HandledFlow(reason: Reason, t: Turn, handlerOk: bool)
    requires Inv(t) && (reason == UserCancelled || reason == Error)
    ensures GoodFlow(t, Handled(reason, t, handlerOk), handlerOk)
  {
    HandledEnd(reason, t, handlerOk);
  }

  lemma CompactingKeeps(c: Control, t: Turn, recovery: Attempt, env: Env, cause: Interrupt, handlerOk: bool)
    requires Inv(t)
    ensures GoodFlow(t, Compacting(c, t, recovery, env, cause, handlerOk), handlerOk)
  {
    if recovery.Interrupted? {
      HandledFlow(InterruptReason(recovery.cause), t, handlerOk);
    } else {
      ContextCompactedKeeps(t, env, true, SummaryText(recovery));
      RetriedKeeps(c, t, ContextCompacted(t, env, true, SummaryText(recovery)), env, cause, handlerOk);
    }
  }

  lemma RetriedKeeps(c: Control, t: Turn, u: Turn, env: Env, cause: Interrupt, handlerOk: bool)
    requires Inv(u) && u.nested == t.nested && u.rows == t.rows && (Presentable(t) ==> Presentable(u))
    ensures GoodFlow(t, Retried(c, t, u, env, cause, handlerOk), handlerOk)
  {
    HandledEnd(InterruptReason(cause), u, handlerOk);
  }

  /** Retries are bounded; one after a prompt that was too long has shrunk it. */
  lemma RetriesAreBounded(c: Control, t: Turn, tooLong: bool, recovery: Attempt, env: Env, cause: Interrupt, handlerOk: bool)
    requires c.llmRetries <= MAX_LLM_RETRIES && c.contextRetries <= MAX_CONTEXT_RETRIES
    ensures var f := Recovered(c, t, tooLong, recovery, env, cause, handlerOk);
            f.Going? ==>
              && f.c.llmRetries <= MAX_LLM_RETRIES && f.c.contextRetries <= MAX_CONTEXT_RETRIES
              && f.c.llmRetries + f.c.contextRetries == c.llmRetries + c.contextRetries + 1
              && (f.c.contextRetries > c.contextRetries ==> tooLong && Shrank(t, f.t, env))
              && (f.c.contextRetries == c.contextRetries ==> f.t == t)
  {
  }

  lemma AnsweredKeeps(c: Control, t: Turn, reply: Reply, env: Env, handlerOk: bool)
    requires Inv(t) && (reply.ToolUse? ==> |reply.outcomes| == |reply.calls|)
    ensures GoodFlow(t, Answered(c, t, reply, env, handlerOk), handlerOk)
  {
    if reply.ToolUse? {
      ToolsUsedKeeps(c, t, reply.content, reply.calls, reply.outcomes, reply.stopAt, reply.stop, reply.dbOk, handlerOk);
    } else if reply.Finished? {
      RepliedKeeps(c, t, reply.reply, reply.verdicts, reply.request, handlerOk);
    } else {
      FailureKeeps(c, t, reply, env, handlerOk);
    }
  }

  lemma FailureKeeps(c: Control, t: Turn, reply: Reply, env: Env, handlerOk: bool)
    requires Inv(t) && (reply.Aborted? || reply.Rejected? || reply.CutOff?)
    ensures GoodFlow(t, Answered(c, t, reply, env, handlerOk), handlerOk)
  {
    if reply.Aborted? {
      HandledFlow(InterruptReason(reply.cause), t, handlerOk);
    } else if reply.Rejected? {
      RecoveredKeeps(c, t, reply.tooLong, reply.recovery, env, reply.cause, handlerOk);
    } else {
      ContinuedKeeps(c, t, reply.text, reply.request, reply.cause, handlerOk);
    }
  }

  lemma ContinuedKeeps(c: Control, t: Turn, text: Content, request: string, cause: Interrupt, handlerOk: bool)
    requires Inv(t)
    ensures GoodFlow(t, Continued(c, t, text, request, cause, handlerOk), handlerOk)
  {
    if c.truncations + 1 > MAX_TRUNCATIONS {
      HandledFlow(InterruptReason(cause), t, handlerOk);
    } else {
      SpeechKeeps(t, Exchange(text, request));
    }
  }

  lemma RepliedKeeps(c: Control, t: Turn, text: Content, verdicts: Verdicts, request: string, handlerOk: bool)
    requires Inv(t)
    ensures GoodFlow(t, Replied(c, t, text, verdicts, request), handlerOk)
  {
    if Fires(verdicts, c.nudges).None? {
      SpeechKeeps(t, Saying(text));
    } else {
      SpeechKeeps(t, Exchange(text, request));
    }
  }

  lemma ToolsUsedKeeps(c: Control, t: Turn, content: Content, calls: seq<ToolCall>, outcomes: seq<Outcome>, stopAt: nat,
                       stop: BatchStop, dbOk: bool, handlerOk: bool)
    requires Inv(t) && |outcomes| == |calls|
    ensures GoodFlow(t, ToolsUsed(c, t, content, calls, outcomes, stopAt, stop, dbOk, handlerOk), handlerOk)
  {
    if BatchIsCut(calls, outcomes, stopAt) {
      CutShortFlow(t, CutOf(content, calls, outcomes, stopAt), stop, handlerOk);
    } else {
      BatchKeeps(t, content, calls, outcomes, dbOk);
    }
  }

  lemma CutShortFlow(t: Turn, cut: Cut, stop: BatchStop, handlerOk: bool)
    requires Inv(t) && |cut.results| <= |cut.calls|
    ensures GoodFlow(t, CutShort(t, cut, stop, handlerOk), handlerOk)
  {
    CutShortEnd(t, cut, stop, handlerOk);
  }

  lemma GoodFlowFrom(t: Turn, u: Turn, f: Flow, handlerOk: bool)
    requires GoodFlow(u, f, handlerOk) && u.nested == t.nested && u.rows == t.rows && (Presentable(t) ==> Presentable(u))
    ensures GoodFlow(t, f, handlerOk)
  {
  }

  lemma GoodFlowThen(t: Turn, f: Flow, g: Flow, handlerOk: bool)
    requires GoodFlow(t, f, handlerOk) && f.Going? && GoodFlow(f.t, g, handlerOk)
    ensures GoodFlow(t, g, handlerOk)
  {
  }

  /** Every step, whatever happens in it. */
  lemma SteppedKeeps(c: Control, t: Turn, s: Step, env: Env, maxSteps: nat, handlerOk: bool)
    requires Inv(t)
    ensures GoodFlow(t, Stepped(c, t, s, env, maxSteps, handlerOk), handlerOk)
  {
    var warn := c.step == maxSteps - BUDGET_WARNING_STEPS + 1;
    if s.cancelled {
      HandledEnd(UserCancelled, t, handlerOk);
    } else if !s.timeUp {
      PreparedKeeps(t, s, warn, env);
      PreparedFlow(c, t, Prepared(t, s, warn, env), s, PrepareFails(t, s, warn, env), env, handlerOk);
    }
  }

  /** From the state a step has prepared on. */
  lemma PreparedFlow(c: Control, t: Turn, u: Turn, s: Step, fails: bool, env: Env, handlerOk: bool)
    requires Inv(u) && u.nested == t.nested && u.rows == t.rows && (Presentable(t) ==> Presentable(u))
    requires fails ==> s.compaction.Interrupted?
    ensures GoodFlow(t, if fails then Handled(InterruptReason(s.compaction.cause), u, handlerOk)
                        else Answered(c, u, s.reply, env, handlerOk), handlerOk)
  {
    if fails {
      HandledEnd(InterruptReason(s.compaction.cause), u, handlerOk);
    } else {
      AnsweredKeeps(c, u, s.reply, env, handlerOk);
      GoodFlowFrom(t, u, Answered(c, u, s.reply, env, handlerOk), handlerOk);
    }
  }

  /** What a step may do: a good flow, and it leaves the loop for a reason of success. */
  ghost predicate GoodStep(t: Turn, f: Flow, handlerOk: bool) { GoodFlow(t, f, handlerOk) && (f.Leaving? ==> SavedAll(f.reason, false)) }

  /** Every run of the loop, if every step is good. */
  lemma {:induction false} LoopedKeeps(next: (Control, Turn, Step) -> Flow, c: Control, t: Turn, script: seq<Step>, maxSteps: nat, handlerOk: bool)
    requires forall c: Control, t: Turn, s: Step :: Inv(t) ==> GoodStep(t, next(c, t, s), handlerOk)
    requires Inv(t) && maxSteps <= |script| && c.step >= 1
    ensures GoodStep(t, Looped(next, c, t, script, maxSteps), handlerOk)
    decreases maxSteps + 1 - c.step
  {
    if c.step <= maxSteps {
      var f := next(c, t, script[c.step - 1]);
      if f.Going? {
        LoopedKeeps(next, NextStep(f.c, c.step), f.t, script, maxSteps, handlerOk);
        GoodFlowThen(t, f, Looped(next, NextStep(f.c, c.step), f.t, script, maxSteps), handlerOk);
      }
    }
  }

  lemma StepperIsGood(env: Env, maxSteps: nat, handlerOk: bool)
    ensures forall c: Control, t: Turn, s: Step :: Inv(t) ==> GoodStep(t, Stepper(env, maxSteps, handlerOk)(c, t, s), handlerOk)
  {
    forall c: Control, t: Turn, s: Step | Inv(t)
      ensures GoodStep(t, Stepper(env, maxSteps, handlerOk)(c, t, s), handlerOk)
    {
      SteppedKeeps(c, t, s, env, maxSteps, handlerOk);
    }
  }

  // ---------------------------------------------------------------------------------------------
  // What is stored along the way

  /** After a batch that is complete and saved, everything said so far and not lost is in the table. */
  lemma BatchIsSaved(c: Control, t: Turn, content: Content, calls: seq<ToolCall>, outcomes: seq<Outcome>, stopAt: nat,
                     stop: BatchStop, handlerOk: bool) returns (u: Turn)
    requires Inv(t) && !t.nested && |outcomes| == |calls| && !BatchIsCut(calls, outcomes, stopAt)
    ensures ToolsUsed(c, t, content, calls, outcomes, stopAt, stop, true, handlerOk).Going?
    ensures u == ToolsUsed(c, t, content, calls, outcomes, stopAt, stop, true, handlerOk).t
    ensures u.spoken == t.spoken + WholeBatch(content, calls, outcomes)
    ensures Holds(u, NotLost(u)) && WellPaired(u.rows) && Fresh(u.cells, u.persisted) == []
  {
    var said := Say(t, WholeBatch(content, calls, outcomes));
    FullBatchPaired(content, calls, Results(outcomes), AttachedImages(outcomes, |calls|));
    SayKeeps(t, WholeBatch(content, calls, outcomes));
    PersistKeeps(said);
    TurnIsStored(said);
    u := Persist(said);
  }

  lemma HandledGrows(t: Turn, dbOk: bool)
    ensures t.rows <= PersistIf(t, dbOk).rows
  {
  }

  lemma SaidGrows(t: Turn, ms: seq<ContextMessage>, dbOk: bool)
    ensures t.rows <= PersistIf(Say(t, ms), dbOk).rows
  {
    HandledGrows(Say(t, ms), dbOk);
  }

  lemma CompactedGrows(t: Turn, env: Env, summary: Option<string>, dbOk: bool)
    ensures t.rows <= PersistIf(ContextCompacted(t, env, true, summary), dbOk).rows
    ensures t.rows == ContextCompacted(t, env, true, summary).rows
  {
    HandledGrows(ContextCompacted(t, env, true, summary), dbOk);
  }

  lemma RecoveredGrows(c: Control, t: Turn, tooLong: bool, recovery: Attempt, env: Env, cause: Interrupt, handlerOk: bool)
    ensures t.rows <= Recovered(c, t, tooLong, recovery, env, cause, handlerOk).t.rows
  {
    HandledGrows(t, handlerOk);
    if tooLong && c.contextRetries < MAX_CONTEXT_RETRIES && !recovery.Interrupted? {
      CompactedGrows(t, env, SummaryText(recovery), handlerOk);
    }
  }

  lemma ToolsUsedGrows(c: Control, t: Turn, content: Content, calls: seq<ToolCall>, outcomes: seq<Outcome>, stopAt: nat,
                       stop: BatchStop, dbOk: bool, handlerOk: bool)
    requires |outcomes| == |calls|
    ensures t.rows <= ToolsUsed(c, t, content, calls, outcomes, stopAt, stop, dbOk, handlerOk).t.rows
  {
    if BatchIsCut(calls, outcomes, stopAt) {
      SaidGrows(t, CutBatch(CutOf(content, calls, outcomes, stopAt)), handlerOk);
    } else {
      SaidGrows(t, WholeBatch(content, calls, outcomes), dbOk);
    }
  }

  lemma AnsweredGrows(c: Control, t: Turn, reply: Reply, env: Env, handlerOk: bool)
    requires reply.ToolUse? ==> |reply.outcomes| == |reply.calls|
    ensures t.rows <= Answered(c, t, reply, env, handlerOk).t.rows
  {
    if reply.Rejected? {
      RecoveredGrows(c, t, reply.tooLong, reply.recovery, env, reply.cause, handlerOk);
    } else if reply.ToolUse? {
      ToolsUsedGrows(c, t, reply.content, reply.calls, reply.outcomes, reply.stopAt, reply.stop, reply.dbOk, handlerOk);
    } else {
      HandledGrows(t, handlerOk);
    }
  }

  /** No step takes a row away, whatever fails in it. */
  lemma RowsGrow(c: Control, t: Turn, s: Step, env: Env, maxSteps: nat, handlerOk: bool)
    ensures t.rows <= Stepped(c, t, s, env, maxSteps, handlerOk).t.rows
  {
    var u := Prepared(t, s, c.step == maxSteps - BUDGET_WARNING_STEPS + 1, env);
    HandledGrows(t, handlerOk);
    HandledGrows(u, handlerOk);
    AnsweredGrows(c, u, s.reply, env, handlerOk);
  }

  // ---------------------------------------------------------------------------------------------
  // What is said

  /** What the outcome of the model call adds to the conversation. */
  function ReplySays(c: Control, s: Step): seq<ContextMessage> {
    match s.reply
    case Aborted(_) => []
    case Rejected(_, _, _) => []
    case CutOff(text, request, _) => if c.truncations + 1 > MAX_TRUNCATIONS then [] else Exchange(text, request)
    case Finished(text, verdicts, request) =>
      if Fires(verdicts, c.nudges).None? then Saying(text) else Exchange(text, request)
    case ToolUse(content, calls, outcomes, stopAt, _, _) =>
      if BatchIsCut(calls, outcomes, stopAt) then CutBatch(CutOf(content, calls, outcomes, stopAt))
      else WholeBatch(content, calls, outcomes)
  }

  function StepSays(c: Control, s: Step, failed: bool): seq<ContextMessage> {
    if s.cancelled || s.timeUp then [] else Users(s.queued) + if failed then [] else ReplySays(c, s)
  }

  /** A step says exactly this; reminders, compaction and saving say nothing. */
  lemma SteppedSays(c: Control, t: Turn, s: Step, env: Env, maxSteps: nat, handlerOk: bool)
    ensures Stepped(c, t, s, env, maxSteps, handlerOk).t.spoken
         == t.spoken + StepSays(c, s, PrepareFails(t, s, c.step == maxSteps - BUDGET_WARNING_STEPS + 1, env))
  {
    var warn := c.step == maxSteps - BUDGET_WARNING_STEPS + 1;
    var u := Prepared(t, s, warn, env);
    PreparedSays(t, s, warn, env);
    AnsweredSays(c, u, s, env, handlerOk);
    assert t.spoken + [] == t.spoken && Users(s.queued) + [] == Users(s.queued);
    Associate(t.spoken, Users(s.queued), ReplySays(c, s));
  }

  lemma PreparedSays(t: Turn, s: Step, warn: bool, env: Env)
    ensures Prepared(t, s, warn, env).spoken == t.spoken + Users(s.queued)
  {
  }

  lemma AnsweredSays(c: Control, t: Turn, s: Step, env: Env, handlerOk: bool)
    ensures Answered(c, t, s.reply, env, handlerOk).t.spoken == t.spoken + ReplySays(c, s)
  {
    assert t.spoken + [] == t.spoken;
    match s.reply
    case Rejected(tooLong, recovery, cause) => RecoveredSaysNothing(c, t, tooLong, recovery, env, cause, handlerOk);
    case _ =>
  }

  lemma RecoveredSaysNothing(c: Control, t: Turn, tooLong: bool, recovery: Attempt, env: Env, cause: Interrupt, handlerOk: bool)
    ensures Recovered(c, t, tooLong, recovery, env, cause, handlerOk).t.spoken == t.spoken
  {
    if tooLong && c.contextRetries < MAX_CONTEXT_RETRIES {
      CompactedSaysNothing(t, env, true, SummaryText(recovery));
    }
  }

  lemma CompactedSaysNothing(t: Turn, env: Env, force: bool, summary: Option<string>)
    ensures ContextCompacted(t, env, force, summary).spoken == t.spoken
  {
  }

  // ---------------------------------------------------------------------------------------------
  // The end of the turn

  /** Storing the same messages again leaves the table well paired. */
  lemma StillPaired(t: Turn)
    requires Inv(t) && !t.nested
    ensures WellPaired(Persist(FinalSave(t)).rows)
  {
    var ms := Msgs(Fresh(t.cells, t.persisted));
    var added := WithoutSystem(ms);
    TurnIsStored(t);
    LateFailureStoresTwice(t);
    OwedWithoutSystem(ms, []);
    OwedByShape(added, StoredForms(added), []);
    PairedAppend(Persist(t).rows, StoredForms(added));
  }

  lemma SavedEnd(reason: Reason, t: Turn, handlerOk: bool)
    requires Inv(t) && SavedAll(reason, true)
    ensures GoodEnd(End(reason, FinalSave(t), None, false), handlerOk)
  {
    if t.nested {
      SomeStored(t);
    } else {
      TurnIsStored(t);
      AllIsSome(FinalSave(t));
    }
  }

  lemma AllIsSome(t: Turn)
    requires Holds(t, NotLost(t))
    ensures HoldsSome(t)
  {
    var k := |NotLost(t)|;
    assert NotLost(t)[..k] == NotLost(t);
    assert Holds(t, NotLost(t)[..k]);
  }

  /** The handler saves after the final save went through. */
  lemma LateEnd(reason: Reason, t: Turn)
    requires Inv(t) && !t.nested && (reason == UserCancelled || reason == Error)
    ensures GoodEnd(End(reason, Persist(FinalSave(t)), None, Numbers(Fresh(t.cells, t.persisted)) != []), true)
  {
    var e := Persist(FinalSave(t));
    SurvivorsIncrease(|t.spoken|, t.lost);
    StillPaired(t);
    if Numbers(Fresh(t.cells, t.persisted)) == [] {
      NothingLeftToSave(t);
      TurnIsStored(FinalSave(t));
    } else {
      LateFailureStoresTwice(t);
      var k := |Numbers(t.saved)|;
      assert k < |NotLost(t)|;
      assert Holds(e, NotLost(e) + NotLost(e)[k..]);
    }
  }

  lemma ConcludedEnd(reason: Reason, t: Turn, ending: Ending)
    requires Inv(t) && SavedAll(reason, false)
    ensures GoodEnd(Concluded(reason, t, ending), ending.handlerOk)
  {
    if ending.saveOk && !ending.lateFailure {
      SavedEnd(reason, t, ending.handlerOk);
    } else if !ending.saveOk {
      HandledEnd(InterruptReason(ending.cause), t, ending.handlerOk);
    } else if ending.handlerOk && !t.nested {
      LateEnd(InterruptReason(ending.cause), t);
    } else {
      SavedEnd(InterruptReason(ending.cause), t, ending.handlerOk);
    }
  }

  lemma RunEnd(t: Turn, script: seq<Step>, env: Env, maxSteps: nat, ending: Ending)
    requires Inv(t) && maxSteps <= |script|
    ensures GoodEnd(Ran(t, script, env, maxSteps, ending), ending.handlerOk)
    ensures t.nested ==> Ran(t, script, env, maxSteps, ending).turn.rows == t.rows
  {
    var next := Stepper(env, maxSteps, ending.handlerOk);
    var f := Looped(next, FIRST, t, script, maxSteps);
    StepperIsGood(env, maxSteps, ending.handlerOk);
    LoopedKeeps(next, FIRST, t, script, maxSteps, ending.handlerOk);
    if f.Leaving? {
      ConcludedEnd(f.reason, f.t, ending);
    }
  }

  lemma RemindIfKeeps(t: Turn, text: Option<string>)
    requires Inv(t)
    ensures Inv(RemindIf(t, text)) && (Presentable(t) ==> Presentable(RemindIf(t, text)))
    ensures RemindIf(t, text).rows == t.rows && RemindIf(t, text).nested == t.nested && RemindIf(t, text).spoken == t.spoken
  {
    if text.Some? {
      RemindKeeps(t, text.value);
    }
  }

  lemma PlannedEnd(t: Turn, planning: Planning, script: seq<Step>, env: Env, maxSteps: nat, ending: Ending)
    requires Inv(t) && maxSteps <= |script|
    ensures GoodEnd(Planned(t, planning, script, env, maxSteps, ending), ending.handlerOk)
    ensures t.nested ==> Planned(t, planning, script, env, maxSteps, ending).turn.rows == t.rows
  {
    match planning
    case PlanningStopped(cause) => HandledEnd(InterruptReason(cause), t, ending.handlerOk);
    case Plan(text) =>
      SpeechKeeps(t, Exchange(Text(text), EXECUTE_PLAN));
      RunEnd(Say(t, Exchange(Text(text), EXECUTE_PLAN)), script, env, maxSteps, ending);
    case NoPlan => RunEnd(t, script, env, maxSteps, ending);
  }

  /** Every turn, whatever its inputs: exactly what it should is stored, and it is well paired unless a
      saved batch was cut and reuses a call id. */
  lemma PlayedEnd(t: Turn, o: Opening, script: seq<Step>, env: Env, maxSteps: nat, ending: Ending)
    requires Inv(t) && maxSteps <= |script|
    ensures GoodEnd(Played(t, o, script, env, maxSteps, ending), ending.handlerOk)
    ensures t.nested ==> Played(t, o, script, env, maxSteps, ending).turn.rows == t.rows
  {
    var u := RemindIf(RemindIf(t, o.plan), o.openFile);
    RemindIfKeeps(t, o.plan);
    RemindIfKeeps(RemindIf(t, o.plan), o.openFile);
    match o.promptHook
    case Blocked => UnsavedEnd(PromptBlocked, u, ending.handlerOk);
    case HookStopped(cause) => HandledEnd(InterruptReason(cause), u, ending.handlerOk);
    case Passed =>
      RemindIfKeeps(u, o.session);
      PlannedEnd(RemindIf(u, o.session), o.planning, script, env, maxSteps, ending);
  }

  // ---------------------------------------------------------------------------------------------
  // Where a cut comes from

  ghost predicate CutFrom(cut: Option<Cut>, script: seq<Step>) {
    cut.Some? ==> |cut.value.results| <= |cut.value.calls| && exists i :: 0 <= i < |script| && IsCallOf(cut.value, script[i])
  }

  ghost predicate IsCallOf(cut: Cut, s: Step) { s.reply.ToolUse? && cut.calls == s.reply.calls }

  ghost predicate CutOfStep(f: Flow, s: Step) {
    f.Ended? && f.cut.Some? ==> |f.cut.value.results| <= |f.cut.value.calls| && IsCallOf(f.cut.value, s)
  }

  lemma StepperCuts(env: Env, maxSteps: nat, handlerOk: bool)
    ensures forall c: Control, t: Turn, s: Step :: CutOfStep(Stepper(env, maxSteps, handlerOk)(c, t, s), s)
  {
    forall c: Control, t: Turn, s: Step
      ensures CutOfStep(Stepper(env, maxSteps, handlerOk)(c, t, s), s)
    {
      SteppedCut(c, t, s, env, maxSteps, handlerOk);
    }
  }

  lemma SteppedCut(c: Control, t: Turn, s: Step, env: Env, maxSteps: nat, handlerOk: bool)
    ensures CutOfStep(Stepped(c, t, s, env, maxSteps, handlerOk), s)
  {
    AnsweredCut(c, Prepared(t, s, c.step == maxSteps - BUDGET_WARNING_STEPS + 1, env), s, env, handlerOk);
  }

  lemma AnsweredCut(c: Control, t: Turn, s: Step, env: Env, handlerOk: bool)
    ensures CutOfStep(Answered(c, t, s.reply, env, handlerOk), s)
  {
  }

  lemma {:induction false} LoopedCut(next: (Control, Turn, Step) -> Flow, c: Control, t: Turn, script: seq<Step>, maxSteps: nat)
    requires forall c: Control, t: Turn, s: Step :: CutOfStep(next(c, t, s), s)
    requires maxSteps <= |script| && c.step >= 1
    ensures var f := Looped(next, c, t, script, maxSteps); f.Ended? ==> CutFrom(f.cut, script)
    decreases maxSteps + 1 - c.step
  {
    if c.step <= maxSteps {
      var f := next(c, t, script[c.step - 1]);
      assert CutOfStep(f, script[c.step - 1]);
      if f.Going? {
        LoopedCut(next, NextStep(f.c, c.step), f.t, script, maxSteps);
      }
    }
  }

  lemma RanCut(t: Turn, script: seq<Step>, env: Env, maxSteps: nat, ending: Ending)
    requires maxSteps <= |script|
    ensures CutFrom(Ran(t, script, env, maxSteps, ending).cut, script)
  {
    StepperCuts(env, maxSteps, ending.handlerOk);
    LoopedCut(Stepper(env, maxSteps, ending.handlerOk), FIRST, t, script, maxSteps);
  }

  /** A turn that ends in a batch ends in one of its script. */
  lemma PlayedCut(t: Turn, o: Opening, script: seq<Step>, env: Env, maxSteps: nat, ending: Ending)
    requires maxSteps <= |script|
    ensures CutFrom(Played(t, o, script, env, maxSteps, ending).cut, script)
  {
    if o.promptHook.Passed? {
      var v := RemindIf(RemindIf(RemindIf(t, o.plan), o.openFile), o.session);
      RanCut(v, script, env, maxSteps, ending);
      if o.planning.Plan? {
        RanCut(Say(v, Exchange(Text(o.planning.text), EXECUTE_PLAN)), script, env, maxSteps, ending);
      }
    }
  }
}
