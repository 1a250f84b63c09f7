/** Retries, continuations and challenges over a whole loop: none of them goes beyond its limit. */
module TurnLimits {
  import opened Conversation
  import opened Compaction
  import opened AgentTurn
  import opened TurnPlay

  /** All counters are within their limits. */
  ghost predicate WithinLimits(c: Control) {
    && c.truncations <= MAX_TRUNCATIONS && c.llmRetries <= MAX_LLM_RETRIES && c.contextRetries <= MAX_CONTEXT_RETRIES
    && forall kind: NudgeKind :: Used(c.nudges, kind) <= NudgeLimit(kind)
  }

  /** The counters that are never reset have not gone down. */
  ghost predicate NotLess(c: Control, d: Control) {
    c.contextRetries <= d.contextRetries && forall kind: NudgeKind :: Used(c.nudges, kind) <= Used(d.nudges, kind)
  }

  /** What a step may make of the counters. */
  ghost predicate Steady(c: Control, f: Flow) {
    f.Going? ==> (WithinLimits(c) ==> WithinLimits(f.c)) && NotLess(c, f.c)
  }

  /** The counters with which each step of a loop is entered. */
  ghost function Entered(next: (Control, Turn, Step) -> Flow, c: Control, t: Turn, script: seq<Step>, maxSteps: nat): seq<Control>
    requires maxSteps <= |script| && c.step >= 1
    decreases maxSteps + 1 - c.step
  {
    if c.step > maxSteps then []
    else
      var f := next(c, t, script[c.step - 1]);
      [c] + if f.Going? then Entered(next, NextStep(f.c, c.step), f.t, script, maxSteps) else []
  }

  lemma RecoveredIsSteady(c: Control, t: Turn, tooLong: bool, recovery: Attempt, env: Env, cause: Interrupt, handlerOk: bool)
    ensures Steady(c, Recovered(c, t, tooLong, recovery, env, cause, handlerOk))
  {
  }

  lemma RepliedIsSteady(c: Control, t: Turn, text: Content, verdicts: Verdicts, request: string)
    ensures Steady(c, Replied(c, t, text, verdicts, request))
  {
  }

  lemma AnsweredIsSteady(c: Control, t: Turn, reply: Reply, env: Env, handlerOk: bool)
    requires reply.ToolUse? ==> |reply.outcomes| == |reply.calls|
    ensures Steady(c, Answered(c, t, reply, env, handlerOk))
  {
    match reply
    case Rejected(tooLong, recovery, cause) => RecoveredIsSteady(c, t, tooLong, recovery, env, cause, handlerOk);
    case Finished(text, verdicts, request) => RepliedIsSteady(c, t, text, verdicts, request);
    case _ =>
  }

  lemma SteppedIsSteady(c: Control, t: Turn, s: Step, env: Env, maxSteps: nat, handlerOk: bool)
    ensures Steady(c, Stepped(c, t, s, env, maxSteps, handlerOk))
  {
    AnsweredIsSteady(c, Prepared(t, s, c.step == maxSteps - BUDGET_WARNING_STEPS + 1, env), s.reply, env, handlerOk);
  }

  /** Over every run of a loop: limits are kept, and the counters that are never reset only rise. */
  lemma {:induction false} EnteredWithinLimits(
    next: (Control, Turn, Step) -> Flow, c: Control, t: Turn, script: seq<Step>, maxSteps: nat)
    requires forall c: Control, t: Turn, s: Step :: Steady(c, next(c, t, s))
    requires maxSteps <= |script| && c.step >= 1 && WithinLimits(c)
    ensures Entered(next, c, t, script, maxSteps) == [] || c.step + |Entered(next, c, t, script, maxSteps)| <= maxSteps + 1
    ensures forall k | 0 <= k < |Entered(next, c, t, script, maxSteps)| ::
              WithinLimits(Entered(next, c, t, script, maxSteps)[k]) && NotLess(c, Entered(next, c, t, script, maxSteps)[k])
    decreases maxSteps + 1 - c.step
  {
    if c.step <= maxSteps {
      var f := next(c, t, script[c.step - 1]);
      if f.Going? {
        var d := NextStep(f.c, c.step);
        assert Steady(c, f);
        assert WithinLimits(d) && NotLess(c, d);
        EnteredWithinLimits(next, d, f.t, script, maxSteps);
      }
    }
  }

  /** How often a prompt that was too long was compacted and tried again. */
  ghost function Compactions(cs: seq<Control>): nat {
    if |cs| < 2 then 0 else (if cs[0].contextRetries != cs[1].contextRetries then 1 else 0) + Compactions(cs[1..])
  }

  /** How often a reply was challenged in this way. */
  ghost function Challenges(cs: seq<Control>, kind: NudgeKind): nat {
    if |cs| < 2 then 0 else (if Used(cs[0].nudges, kind) != Used(cs[1].nudges, kind) then 1 else 0) + Challenges(cs[1..], kind)
  }

  /** The counters count. */
  lemma {:induction false} CountedBelow(
    next: (Control, Turn, Step) -> Flow, c: Control, t: Turn, script: seq<Step>, maxSteps: nat, kind: NudgeKind)
    requires forall c: Control, t: Turn, s: Step :: Steady(c, next(c, t, s))
    requires maxSteps <= |script| && c.step >= 1 && WithinLimits(c)
    ensures c.contextRetries + Compactions(Entered(next, c, t, script, maxSteps)) <= MAX_CONTEXT_RETRIES
    ensures Used(c.nudges, kind) + Challenges(Entered(next, c, t, script, maxSteps), kind) <= NudgeLimit(kind)
    decreases maxSteps + 1 - c.step
  {
    if c.step <= maxSteps {
      var f := next(c, t, script[c.step - 1]);
      if f.Going? {
        var d := NextStep(f.c, c.step);
        var rest := Entered(next, d, f.t, script, maxSteps);
        assert Steady(c, f);
        assert WithinLimits(d) && NotLess(c, d);
        CountedBelow(next, d, f.t, script, maxSteps, kind);
        assert Entered(next, c, t, script, maxSteps) == [c] + rest;
        assert ([c] + rest)[1..] == rest;
      }
    }
  }

  /** A whole loop takes at most its steps, compacts a prompt that was too long at most three times, and
      challenges a reply in each way no more often than its limit allows. */
  lemma LoopIsBounded(t: Turn, script: seq<Step>, env: Env, maxSteps: nat, handlerOk: bool, kind: NudgeKind)
    requires maxSteps <= |script|
    ensures var cs := Entered(Stepper(env, maxSteps, handlerOk), FIRST, t, script, maxSteps);
            && |cs| <= maxSteps && (forall k | 0 <= k < |cs| :: WithinLimits(cs[k]))
            && Compactions(cs) <= MAX_CONTEXT_RETRIES && Challenges(cs, kind) <= NudgeLimit(kind)
  {
    var next := Stepper(env, maxSteps, handlerOk);
    forall c: Control, t: Turn, s: Step
      ensures Steady(c, next(c, t, s))
    {
      SteppedIsSteady(c, t, s, env, maxSteps, handlerOk);
    }
    EnteredWithinLimits(next, FIRST, t, script, maxSteps);
    CountedBelow(next, FIRST, t, script, maxSteps, kind);
  }
}
