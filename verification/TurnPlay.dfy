/** A whole turn as a function of its inputs: what the model, the tools, the hooks, the user and the
    database do decides what is said and what is stored. */
module TurnPlay {
  import opened Options
  import opened Conversation
  import opened Compaction
  import opened MessageTable
  import opened AgentTurn
  import opened TurnSafety
  import opened ToolBatch

  const MAX_TRUNCATIONS := 3
  const MAX_LLM_RETRIES := 5
  const MAX_CONTEXT_RETRIES := 3
  const BUDGET_WARNING_STEPS := 5
  const EXECUTE_PLAN :=
    "Nothing from that plan has been executed yet. Carry it out now using tool calls, then verify with run_lint/run_tests."
  const COMPACT_AT := 0.60
  const COMPACT_TO := 0.40

  // ---------------------------------------------------------------------------------------------
  // The inputs of a turn

  datatype Interrupt = Cancellation | Exception

  /** What a compaction, or the wait before a retry, meets. */
  datatype Attempt = Summary(text: string) | NoSummary | Interrupted(cause: Interrupt)

  /** What ends a batch early: an interrupt, or the user who answers an approval with "Cancel Run". */
  datatype BatchStop = Stopped(cause: Interrupt) | CancelRunChosen

  datatype NudgeKind = TextToolCall | NoAction | Unverified | FailedVerification | StopHook

  /** Which of the five challenges apply to a reply without tool calls. */
  datatype Verdicts = Verdicts(textToolCall: bool, noAction: bool, unverified: bool, failedVerification: bool, stopHook: bool)

  /** How the model call of a step came out; `Aborted` while it streams or before its reply is acted on. A step
      that fails for good ends with `cause`: an exception, unless the run was cancelled meanwhile. */
  datatype Reply =
    | Aborted(cause: Interrupt)
    | Rejected(tooLong: bool, recovery: Attempt, cause: Interrupt)
    | CutOff(text: Content, request: string, cause: Interrupt)
    | Finished(reply: Content, verdicts: Verdicts, request: string)
    | ToolUse(content: Content, calls: seq<ToolCall>, outcomes: seq<Outcome>, stopAt: nat, stop: BatchStop, dbOk: bool)

  datatype StepInput = StepInput(
    cancelled: bool, timeUp: bool, queued: seq<string>, notice: string, compaction: Attempt, reply: Reply)

  /** Every call has an outcome. */
  type Step = s: StepInput | s.reply.ToolUse? ==> |s.reply.outcomes| == |s.reply.calls|
    witness StepInput(true, false, [], "", NoSummary, Aborted(Cancellation))

  datatype HookOutcome = Passed | Blocked | HookStopped(cause: Interrupt)

  datatype Planning = NoPlan | Plan(text: string) | PlanningStopped(cause: Interrupt)

  /** Before the loop: context for this turn, the prompt hooks, what session hooks print, the upfront plan. */
  datatype Opening = Opening(
    plan: Option<string>, openFile: Option<string>, promptHook: HookOutcome, session: Option<string>, planning: Planning)

  /** How the database and the end of the turn behave: the final save, a failure after it, the save of the
      error handler. */
  datatype Ending = Ending(saveOk: bool, lateFailure: bool, cause: Interrupt, handlerOk: bool)

  datatype Reason = Completed | MaxSteps | Timeout | UserCancelled | RunCancelled | PromptBlocked | Error

  function InterruptReason(cause: Interrupt): Reason { if cause == Cancellation then UserCancelled else Error }

  function StopReason(stop: BatchStop): Reason {
    match stop
    case Stopped(cause) => InterruptReason(cause)
    case CancelRunChosen => RunCancelled
  }

  // ---------------------------------------------------------------------------------------------
  // Challenges

  function NudgeLimit(kind: NudgeKind): nat {
    match kind
    case TextToolCall => 3
    case NoAction => 1
    case Unverified => 2
    case FailedVerification => 1
    case StopHook => 2
  }

  /** The order in which they are tried. */
  function Rank(kind: NudgeKind): nat {
    match kind
    case TextToolCall => 0
    case NoAction => 1
    case Unverified => 2
    case FailedVerification => 3
    case StopHook => 4
  }

  predicate Holding(v: Verdicts, kind: NudgeKind) {
    match kind
    case TextToolCall => v.textToolCall
    case NoAction => v.noAction
    case Unverified => v.unverified
    case FailedVerification => v.failedVerification
    case StopHook => v.stopHook
  }

  function Used(nudges: map<NudgeKind, nat>, kind: NudgeKind): nat {
    if kind in nudges then nudges[kind] else 0
  }

  /** The challenge applies, and has not been made too often. */
  predicate Open(v: Verdicts, nudges: map<NudgeKind, nat>, kind: NudgeKind) {
    Holding(v, kind) && Used(nudges, kind) < NudgeLimit(kind)
  }

  /** The challenge that is made: the first one open. */
  function Fires(v: Verdicts, nudges: map<NudgeKind, nat>): (r: Option<NudgeKind>)
    ensures r.Some? ==> Open(v, nudges, r.value) && forall k: NudgeKind :: Rank(k) < Rank(r.value) ==> !Open(v, nudges, k)
    ensures r.None? ==> forall k: NudgeKind :: !Open(v, nudges, k)
  {
    if Open(v, nudges, TextToolCall) then Some(TextToolCall)
    else if Open(v, nudges, NoAction) then Some(NoAction)
    else if Open(v, nudges, Unverified) then Some(Unverified)
    else if Open(v, nudges, FailedVerification) then Some(FailedVerification)
    else if Open(v, nudges, StopHook) then Some(StopHook)
    else None
  }

  // ---------------------------------------------------------------------------------------------
  // compactContext

  predicate FindsSpan(ms: seq<ContextMessage>, preserveLastN: nat) {
    CutPoint(ms, preserveLastN) >= HeadLength(ms) + MIN_EVICTED
  }

  /** How many of the last messages compaction keeps: fewer once a prompt was rejected. */
  const KEPT: nat := 8
  const KEPT_AFTER_REJECTION: nat := 4

  function KeepLast(force: bool): nat {
    if force then KEPT_AFTER_REJECTION else KEPT
  }

  function SummaryText(c: Attempt): Option<string> { if c.Summary? then Some(c.text) else None }

  /** The state compactContext leaves: a summary if there is one to put in, placeholders if not, and
      both after the provider rejected the prompt and the summary was not enough. */
  ghost function ContextCompacted(t: Turn, env: Env, force: bool, summary: Option<string>): Turn {
    var summarized := summary.Some? && FindsSpan(Msgs(t.cells), KeepLast(force));
    var s := if summarized then Summarize(t, KeepLast(force), summary.value) else t;
    if summarized && !(force && ShouldCompact(env, Msgs(s.cells), COMPACT_TO)) then s
    else Shrink(s, CompactedMessages(env, Msgs(s.cells), TargetTokens(env, COMPACT_TO), KeepLast(force)))
  }

  lemma ContextCompactedKeeps(t: Turn, env: Env, force: bool, summary: Option<string>)
    requires Inv(t)
    ensures Inv(ContextCompacted(t, env, force, summary))
    ensures Presentable(t) ==> Presentable(ContextCompacted(t, env, force, summary))
    ensures ContextCompacted(t, env, force, summary).spoken == t.spoken
    ensures ContextCompacted(t, env, force, summary).rows == t.rows && ContextCompacted(t, env, force, summary).nested == t.nested
  {
    var summarized := summary.Some? && FindsSpan(Msgs(t.cells), KeepLast(force));
    var s := if summarized then Summarize(t, KeepLast(force), summary.value) else t;
    if summarized {
      SummarizeKeeps(t, KeepLast(force), summary.value);
    }
    CompactionKeeps(s, env, TargetTokens(env, COMPACT_TO), KeepLast(force));
  }

  // ---------------------------------------------------------------------------------------------
  // One step

  datatype Control = Control(step: nat, truncations: nat, llmRetries: nat, contextRetries: nat, nudges: map<NudgeKind, nat>)

  const FIRST := Control(1, 0, 0, 0, map[])

  /** The batch a turn ended in, and the results its first calls had. */
  datatype Cut = Cut(content: Content, calls: seq<ToolCall>, results: seq<string>)

  /** Where a step leads: on, out of the loop to the final save, or to the end of the turn. */
  datatype Flow =
    | Going(c: Control, t: Turn)
    | Leaving(reason: Reason, t: Turn)
    | Ended(reason: Reason, t: Turn, cut: Option<Cut>)

  function Users(texts: seq<string>): (r: seq<ContextMessage>)
    ensures |r| == |texts|
  {
    seq(|texts|, i requires 0 <= i < |texts| => Plain(User, Text(texts[i])))
  }

  /** What the model said, and what the loop asks of it next. */
  function Exchange(reply: Content, request: string): seq<ContextMessage> {
    [Plain(Assistant, reply), Plain(User, Text(request))]
  }

  /** The budget warning, in the wording for this turn. */
  function Warning(s: Step, warn: bool): Option<string> { if warn then Some(s.notice) else None }

  /** The user's queued messages, and the budget warning. */
  function Steered(t: Turn, queued: seq<string>, warning: Option<string>): Turn {
    RemindIf(Say(t, Users(queued)), warning)
  }

  /** Compaction before the call, if the history is above 60 % of the window. */
  ghost function Prepared(t: Turn, s: Step, warn: bool, env: Env): Turn {
    var u := Steered(t, s.queued, Warning(s, warn));
    if ShouldCompact(env, Msgs(u.cells), COMPACT_AT) && !s.compaction.Interrupted? then
      ContextCompacted(u, env, false, SummaryText(s.compaction))
    else u
  }

  ghost predicate PrepareFails(t: Turn, s: Step, warn: bool, env: Env) {
    ShouldCompact(env, Msgs(Steered(t, s.queued, Warning(s, warn)).cells), COMPACT_AT) && s.compaction.Interrupted?
  }

  /** The error and cancellation handler: save what there is. */
  function Handled(reason: Reason, t: Turn, handlerOk: bool): Flow { Ended(reason, PersistIf(t, handlerOk), None) }

  ghost predicate Shrank(t: Turn, u: Turn, env: Env) {
    TotalTokens(env, Msgs(u.cells)) < TotalTokens(env, Msgs(t.cells))
  }

  /** A prompt that was too long was compacted to `u`; that must shrink it. */
  ghost function Retried(c: Control, t: Turn, u: Turn, env: Env, cause: Interrupt, handlerOk: bool): Flow {
    if Shrank(t, u, env) then Going(c.(contextRetries := c.contextRetries + 1), u) else Handled(InterruptReason(cause), u, handlerOk)
  }

  ghost function Compacting(c: Control, t: Turn, recovery: Attempt, env: Env, cause: Interrupt, handlerOk: bool): Flow {
    if recovery.Interrupted? then Handled(InterruptReason(recovery.cause), t, handlerOk)
    else Retried(c, t, ContextCompacted(t, env, true, SummaryText(recovery)), env, cause, handlerOk)
  }

  /** A failed model call: compact and retry if the prompt was too long, else back off and retry, each a
      limited number of times. */
  ghost function Recovered(c: Control, t: Turn, tooLong: bool, recovery: Attempt, env: Env, cause: Interrupt, handlerOk: bool): Flow {
    if tooLong && c.contextRetries < MAX_CONTEXT_RETRIES then Compacting(c, t, recovery, env, cause, handlerOk)
    else if c.llmRetries >= MAX_LLM_RETRIES then Handled(InterruptReason(cause), t, handlerOk)
    else if recovery.Interrupted? then Handled(InterruptReason(recovery.cause), t, handlerOk)
    else Going(c.(llmRetries := c.llmRetries + 1), t)
  }

  function BatchIsCut(calls: seq<ToolCall>, outcomes: seq<Outcome>, stopAt: nat): bool {
    stopAt < Moments(outcomes, Parallel(calls))
  }

  function CutOf(content: Content, calls: seq<ToolCall>, outcomes: seq<Outcome>, stopAt: nat): (cut: Cut)
    requires |outcomes| == |calls| && BatchIsCut(calls, outcomes, stopAt)
    ensures |cut.results| <= |cut.calls|
  {
    Cut(content, calls, TextsAt(outcomes, Parallel(calls), stopAt))
  }

  function CutBatch(cut: Cut): seq<ContextMessage>
    requires |cut.results| <= |cut.calls|
  {
    PartialBatch(cut.content, cut.calls, cut.results)
  }

  function WholeBatch(content: Content, calls: seq<ToolCall>, outcomes: seq<Outcome>): seq<ContextMessage>
    requires |outcomes| == |calls|
  {
    FullBatch(content, calls, Results(outcomes), AttachedImages(outcomes, |calls|))
  }

  /** A cut batch is saved by the error handler, except after "Cancel Run", which returns at once. */
  function CutShort(t: Turn, cut: Cut, stop: BatchStop, handlerOk: bool): Flow
    requires |cut.results| <= |cut.calls|
  {
    var u := Say(t, CutBatch(cut));
    Ended(StopReason(stop), if stop.CancelRunChosen? then u else PersistIf(u, handlerOk), Some(cut))
  }

  /** A batch that is complete is saved, and the loop goes on. */
  function ToolsUsed(c: Control, t: Turn, content: Content, calls: seq<ToolCall>, outcomes: seq<Outcome>, stopAt: nat,
                     stop: BatchStop, dbOk: bool, handlerOk: bool): Flow
    requires |outcomes| == |calls|
  {
    if BatchIsCut(calls, outcomes, stopAt) then CutShort(t, CutOf(content, calls, outcomes, stopAt), stop, handlerOk)
    else Going(c.(llmRetries := 0, truncations := 0), PersistIf(Say(t, WholeBatch(content, calls, outcomes)), dbOk))
  }

  function Saying(reply: Content): seq<ContextMessage> { if reply == NoContent then [] else [Plain(Assistant, reply)] }

  /** A reply that the output-token limit cut off is continued, a limited number of times in a row. */
  function Continued(c: Control, t: Turn, text: Content, request: string, cause: Interrupt, handlerOk: bool): Flow {
    if c.truncations + 1 > MAX_TRUNCATIONS then Handled(InterruptReason(cause), t, handlerOk)
    else Going(c.(llmRetries := 0, truncations := c.truncations + 1), Say(t, Exchange(text, request)))
  }

  /** A reply without tool calls ends the turn unless a challenge fires. */
  function Replied(c: Control, t: Turn, text: Content, verdicts: Verdicts, request: string): (f: Flow)
    ensures f.Leaving? ==> f.reason == Completed
  {
    var fires := Fires(verdicts, c.nudges);
    if fires.None? then Leaving(Completed, Say(t, Saying(text)))
    else
      Going(c.(llmRetries := 0, truncations := 0, nudges := c.nudges[fires.value := Used(c.nudges, fires.value) + 1]),
            Say(t, Exchange(text, request)))
  }

  ghost function Answered(c: Control, t: Turn, reply: Reply, env: Env, handlerOk: bool): (f: Flow)
    requires reply.ToolUse? ==> |reply.outcomes| == |reply.calls|
    ensures f.Leaving? ==> f.reason == Completed
  {
    match reply
    case Aborted(cause) => Handled(InterruptReason(cause), t, handlerOk)
    case Rejected(tooLong, recovery, cause) => Recovered(c, t, tooLong, recovery, env, cause, handlerOk)
    case CutOff(text, request, cause) => Continued(c, t, text, request, cause, handlerOk)
    case Finished(text, verdicts, request) => Replied(c, t, text, verdicts, request)
    case ToolUse(content, calls, outcomes, stopAt, stop, dbOk) =>
      ToolsUsed(c, t, content, calls, outcomes, stopAt, stop, dbOk, handlerOk)
  }

  ghost function Stepped(c: Control, t: Turn, s: Step, env: Env, maxSteps: nat, handlerOk: bool): (f: Flow)
    ensures f.Leaving? ==> f.reason == Completed || f.reason == Timeout
  {
    var warn := c.step == maxSteps - BUDGET_WARNING_STEPS + 1;
    if s.cancelled then Handled(UserCancelled, t, handlerOk)
    else if s.timeUp then Leaving(Timeout, t)
    else if PrepareFails(t, s, warn, env) then Handled(InterruptReason(s.compaction.cause), Prepared(t, s, warn, env), handlerOk)
    else Answered(c, Prepared(t, s, warn, env), s.reply, env, handlerOk)
  }

  function NextStep(c: Control, step: nat): Control { c.(step := step + 1) }

  /** The loop, whatever a step does. */
  ghost function Looped(next: (Control, Turn, Step) -> Flow, c: Control, t: Turn, script: seq<Step>, maxSteps: nat): (f: Flow)
    requires maxSteps <= |script| && c.step >= 1
    ensures !f.Going?
    decreases maxSteps + 1 - c.step
  {
    if c.step > maxSteps then Leaving(MaxSteps, t)
    else
      var f := next(c, t, script[c.step - 1]);
      if f.Going? then Looped(next, NextStep(f.c, c.step), f.t, script, maxSteps) else f
  }

  ghost function Stepper(env: Env, maxSteps: nat, handlerOk: bool): (Control, Turn, Step) -> Flow {
    (c: Control, t: Turn, s: Step) => Stepped(c, t, s, env, maxSteps, handlerOk)
  }

  // ---------------------------------------------------------------------------------------------
  // The whole turn

  /** `twice`: something failed after a final save that had messages to store. */
  datatype End = End(reason: Reason, turn: Turn, cut: Option<Cut>, twice: bool)

  /** The final save. If it fails, or something after it does, the error handler saves once more. */
  function Concluded(reason: Reason, t: Turn, ending: Ending): End {
    var saved := if ending.saveOk then FinalSave(t) else t;
    if ending.saveOk && !ending.lateFailure then End(reason, saved, None, false)
    else
      End(InterruptReason(ending.cause), PersistIf(saved, ending.handlerOk), None,
          !t.nested && ending.saveOk && ending.handlerOk && Numbers(Fresh(t.cells, t.persisted)) != [])
  }

  ghost function Ran(t: Turn, script: seq<Step>, env: Env, maxSteps: nat, ending: Ending): End
    requires maxSteps <= |script|
  {
    var f := Looped(Stepper(env, maxSteps, ending.handlerOk), FIRST, t, script, maxSteps);
    if f.Leaving? then Concluded(f.reason, f.t, ending) else End(f.reason, f.t, f.cut, false)
  }

  function RemindIf(t: Turn, text: Option<string>): Turn { if text.Some? then Remind(t, text.value) else t }

  /** The plan the model makes upfront, and the loop. */
  ghost function Planned(t: Turn, planning: Planning, script: seq<Step>, env: Env, maxSteps: nat, ending: Ending): End
    requires maxSteps <= |script|
  {
    match planning
    case PlanningStopped(cause) => End(InterruptReason(cause), PersistIf(t, ending.handlerOk), None, false)
    case Plan(text) => Ran(Say(t, Exchange(Text(text), EXECUTE_PLAN)), script, env, maxSteps, ending)
    case NoPlan => Ran(t, script, env, maxSteps, ending)
  }

  /** A blocked prompt ends the turn with nothing saved. */
  ghost function Played(t: Turn, o: Opening, script: seq<Step>, env: Env, maxSteps: nat, ending: Ending): End
    requires maxSteps <= |script|
  {
    var u := RemindIf(RemindIf(t, o.plan), o.openFile);
    match o.promptHook
    case Blocked => End(PromptBlocked, u, None, false)
    case HookStopped(cause) => End(InterruptReason(cause), PersistIf(u, ending.handlerOk), None, false)
    case Passed => Planned(RemindIf(u, o.session), o.planning, script, env, maxSteps, ending)
  }

  // ---------------------------------------------------------------------------------------------
  // What is stored

  /** Whether a turn that ended like this has tried, and managed, to save all it said. */
  predicate SavedAll(reason: Reason, handlerOk: bool) {
    match reason
    case Completed | MaxSteps | Timeout => true
    case UserCancelled | Error => handlerOk
    case RunCancelled | PromptBlocked => false
  }

  predicate SavesAll(e: End, handlerOk: bool) { !e.turn.nested && SavedAll(e.reason, handlerOk) }

  ghost predicate HoldsSome(t: Turn) {
    exists k :: 0 <= k <= |NotLost(t)| && Holds(t, NotLost(t)[..k])
  }

  ghost predicate HoldsCut(t: Turn, cut: Cut) {
    |cut.results| <= |cut.calls| && InTurn(t, NotLost(t)) &&
    t.rows == StoredForms(Recorded(t, NotLost(t)) + Unanswered(cut.calls, cut.results))
  }

  ghost predicate HoldsTwice(t: Turn) {
    exists k :: 0 <= k < |NotLost(t)| && Holds(t, NotLost(t) + NotLost(t)[k..])
  }

  /** No call a cut left unanswered repeats the id of an answered one. */
  ghost predicate IdsAreFresh(cut: Cut) {
    |cut.results| <= |cut.calls| && NoReusedId(cut.calls, |cut.results|)
  }

  /** What the turn's rows are: all it said and did not lose, once and in order, if it saved all; followed
      by placeholders for open calls if it ended inside a batch; a first part of it if it did not save all;
      its end repeated if something failed late. */
  ghost predicate Stores(e: End, handlerOk: bool) {
    && Increasing(NotLost(e.turn))
    && (e.twice ==> HoldsTwice(e.turn))
    && (!e.twice && !SavesAll(e, handlerOk) ==> HoldsSome(e.turn))
    && (!e.twice && SavesAll(e, handlerOk) ==>
          if e.cut.None? then Holds(e.turn, NotLost(e.turn)) else HoldsCut(e.turn, e.cut.value))
  }

  /** The rows are well paired, but for a saved batch that was cut and reuses a call id. */
  ghost predicate StoresPaired(e: End, handlerOk: bool) {
    WellPaired(e.turn.rows) <==> (e.cut.Some? && SavesAll(e, handlerOk) ==> IdsAreFresh(e.cut.value))
  }
}
