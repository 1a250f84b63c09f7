/** The loop as a run of the state machine: whatever happens in a turn, its steps are made of the machine's events. */
module TurnRuns {
  import opened Options
  import opened Conversation
  import opened Compaction
  import opened AgentTurn
  import opened ToolBatch
  import opened TurnPlay

  ghost predicate AllLegal(es: seq<Event>) { forall e | e in es :: LegalEvent(e) }

  /** Some run of the machine leads from `t` to `u`. */
  ghost predicate Leads(t: Turn, u: Turn) { exists es :: AllLegal(es) && After(t, es) == u }

  lemma {:induction false} AfterBoth(t: Turn, a: seq<Event>, b: seq<Event>)
    requires AllLegal(a) && AllLegal(b) && AllLegal(a + b)
    ensures After(t, a + b) == After(After(t, a), b)
    decreases |a|
  {
    if a == [] {
      assert a + b == b;
    } else {
      assert (a + b)[1..] == a[1..] + b && (a + b)[0] == a[0];
      assert AllLegal(a[1..]) && AllLegal(a[1..] + b);
      AfterBoth(Next(t, a[0]), a[1..], b);
    }
  }

  lemma LeadsNowhere(t: Turn)
    ensures Leads(t, t)
  {
    var es: seq<Event> := [];
    assert AllLegal(es) && After(t, es) == t;
  }

  lemma LeadsOn(t: Turn, u: Turn, v: Turn)
    requires Leads(t, u) && Leads(u, v)
    ensures Leads(t, v)
  {
    var a :| AllLegal(a) && After(t, a) == u;
    var b :| AllLegal(b) && After(u, b) == v;
    assert AllLegal(a + b);
    AfterBoth(t, a, b);
  }

  lemma LeadsByEvent(t: Turn, e: Event)
    requires LegalEvent(e)
    ensures Leads(t, Next(t, e))
  {
    assert [e][1..] == [] && AllLegal([e]);
    assert After(t, [e]) == After(Next(t, e), []);
  }

  lemma SpeechLeads(t: Turn, ms: seq<ContextMessage>)
    requires forall m | m in ms :: Bystander(m) && m.role != System
    ensures Leads(t, Say(t, ms))
  {
    LeadsByEvent(t, Speech(ms));
  }

  lemma SteeredLeads(t: Turn, queued: seq<string>, warning: Option<string>)
    ensures Leads(t, Steered(t, queued, warning))
  {
    var u := Say(t, Users(queued));
    SpeechLeads(t, Users(queued));
    if warning.Some? {
      LeadsByEvent(u, Reminder(warning.value));
      LeadsOn(t, u, Remind(u, warning.value));
    }
  }

  lemma CompactedLeads(t: Turn, env: Env, force: bool, summary: Option<string>)
    ensures Leads(t, ContextCompacted(t, env, force, summary))
  {
    var keep := KeepLast(force);
    var summarized := summary.Some? && FindsSpan(Msgs(t.cells), keep);
    var s := if summarized then Summarize(t, keep, summary.value) else t;
    LeadsNowhere(t);
    if summarized {
      LeadsByEvent(t, SummaryCompaction(keep, summary.value));
    }
    LeadsByEvent(s, PlaceholderCompaction(env, TargetTokens(env, COMPACT_TO), keep));
    LeadsOn(t, s, Shrink(s, CompactedMessages(env, Msgs(s.cells), TargetTokens(env, COMPACT_TO), keep)));
  }

  lemma PreparedLeads(t: Turn, s: Step, warn: bool, env: Env)
    ensures Leads(t, Prepared(t, s, warn, env))
  {
    var u := Steered(t, s.queued, Warning(s, warn));
    SteeredLeads(t, s.queued, Warning(s, warn));
    CompactedLeads(u, env, false, SummaryText(s.compaction));
    LeadsOn(t, u, ContextCompacted(u, env, false, SummaryText(s.compaction)));
  }

  lemma BatchLeads(t: Turn, content: Content, calls: seq<ToolCall>, outcomes: seq<Outcome>, dbOk: bool)
    requires |outcomes| == |calls|
    ensures Leads(t, PersistIf(Say(t, WholeBatch(content, calls, outcomes)), dbOk))
  {
    LeadsByEvent(t, Batch(content, calls, Results(outcomes), AttachedImages(outcomes, |calls|), dbOk));
  }

  lemma RecoveredLeads(c: Control, t: Turn, tooLong: bool, recovery: Attempt, env: Env, cause: Interrupt, handlerOk: bool)
    ensures var f := Recovered(c, t, tooLong, recovery, env, cause, handlerOk); !f.Ended? ==> Leads(t, f.t)
  {
    LeadsNowhere(t);
    CompactedLeads(t, env, true, SummaryText(recovery));
  }

  lemma AnsweredLeads(c: Control, t: Turn, reply: Reply, env: Env, handlerOk: bool)
    requires reply.ToolUse? ==> |reply.outcomes| == |reply.calls|
    ensures var f := Answered(c, t, reply, env, handlerOk); !f.Ended? ==> Leads(t, f.t)
  {
    match reply
    case Aborted(cause) =>
    case Rejected(tooLong, recovery, cause) => RecoveredLeads(c, t, tooLong, recovery, env, cause, handlerOk);
    case CutOff(text, request, _) => SpeechLeads(t, Exchange(text, request));
    case Finished(text, verdicts, request) =>
      SpeechLeads(t, Exchange(text, request));
      SpeechLeads(t, Saying(text));
    case ToolUse(content, calls, outcomes, stopAt, stop, dbOk) => BatchLeads(t, content, calls, outcomes, dbOk);
  }

  /** A step that does not end the turn is a run of events. */
  lemma SteppedLeads(c: Control, t: Turn, s: Step, env: Env, maxSteps: nat, handlerOk: bool)
    ensures var f := Stepped(c, t, s, env, maxSteps, handlerOk); !f.Ended? ==> Leads(t, f.t)
  {
    var warn := c.step == maxSteps - BUDGET_WARNING_STEPS + 1;
    var u := Prepared(t, s, warn, env);
    LeadsNowhere(t);
    PreparedLeads(t, s, warn, env);
    AnsweredLeads(c, u, s.reply, env, handlerOk);
    var f := Answered(c, u, s.reply, env, handlerOk);
    if !f.Ended? {
      LeadsOn(t, u, f.t);
    }
  }

  /** And so is the whole loop, whatever happens in it. */
  lemma {:induction false} LoopedLeads(next: (Control, Turn, Step) -> Flow, c: Control, t: Turn, script: seq<Step>, maxSteps: nat)
    requires forall c: Control, t: Turn, s: Step :: !next(c, t, s).Ended? ==> Leads(t, next(c, t, s).t)
    requires maxSteps <= |script| && c.step >= 1
    ensures var f := Looped(next, c, t, script, maxSteps); !f.Ended? ==> Leads(t, f.t)
    decreases maxSteps + 1 - c.step
  {
    if c.step <= maxSteps {
      var f := next(c, t, script[c.step - 1]);
      if f.Going? {
        LoopedLeads(next, NextStep(f.c, c.step), f.t, script, maxSteps);
        var g := Looped(next, NextStep(f.c, c.step), f.t, script, maxSteps);
        if !g.Ended? {
          LeadsOn(t, f.t, g.t);
        }
      }
    } else {
      LeadsNowhere(t);
    }
  }

  /** The turn at its final save has come from its start by events of the machine alone. */
  lemma LoopIsRun(t: Turn, script: seq<Step>, env: Env, maxSteps: nat, handlerOk: bool)
    requires maxSteps <= |script|
    ensures var f := Looped(Stepper(env, maxSteps, handlerOk), FIRST, t, script, maxSteps); f.Leaving? ==> Leads(t, f.t)
  {
    var next := Stepper(env, maxSteps, handlerOk);
    forall c: Control, t: Turn, s: Step
      ensures !next(c, t, s).Ended? ==> Leads(t, next(c, t, s).t)
    {
      SteppedLeads(c, t, s, env, maxSteps, handlerOk);
    }
    LoopedLeads(next, FIRST, t, script, maxSteps);
  }
}
