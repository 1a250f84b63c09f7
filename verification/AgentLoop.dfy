/** The agent loop as an object: its message list, the set of persisted message objects, and the table
    it writes to. Model, tools, hooks and the user are inputs. */
module AgentLoop {
  import opened Options
  import opened Conversation
  import opened Compaction
  import opened MessageTable
  import opened MessageDb
  import opened AgentTurn
  import opened ToolBatch
  import opened TurnPlay
  import opened TurnOutcome
  import opened TurnMeaning

  /** The placeholders of calls that are still running: the object to fill in, and the call it answers. */
  datatype Pending = Pending(ref: nat, index: nat)

  class Loop {
    const project: string
    const turnIndex: nat
    const nested: bool
    const env: Env
    const db: Database

    var messages: seq<Cell>
    var alreadyPersisted: set<nat>
    var nextRef: nat

    var said: nat   // numbers the turn's own messages in their cells; only the specification looks at the numbers

    ghost var spoken: seq<ContextMessage>
    ghost var forms: seq<ContextMessage>
    ghost var lost: set<nat>
    ghost var saved: seq<Cell>
    ghost var rows: seq<ContextMessage>
    ghost const start: seq<Row>
    ghost const before: seq<Row>

    ghost predicate Numbered()
      reads this
    {
      said == |spoken|
    }

    ghost function State(): Turn
      reads this
    {
      Turn(nested, messages, alreadyPersisted, nextRef, rows, spoken, forms, lost, saved)
    }

    /** `rows` is what the project's rows hold behind those that were there before; the rows of all other
        projects are what they were. */
    ghost predicate Linked()
      reads this, db
    {
      LinkedTo(db.rows, project, turnIndex, before, rows) && SameElsewhere(start, db.rows, project)
    }

    constructor (db: Database, project: string, turnIndex: nat, nested: bool, env: Env,
                 systemPrompt: string, history: seq<ContextMessage>, persistedCount: nat)
      requires persistedCount <= |history|
      requires UniqueKeys(db.rows) && LatestTurn(db.rows, project) <= turnIndex
      ensures this.db == db && this.project == project && this.turnIndex == turnIndex && this.nested == nested && this.env == env
      ensures start == db.rows && before == Read(db.rows, project) && Linked() && Numbered()
      ensures State() == Start(nested, systemPrompt, history, persistedCount)
    {
      var t := Start(nested, systemPrompt, history, persistedCount);
      this.db, this.project, this.turnIndex, this.nested, this.env := db, project, turnIndex, nested, env;
      messages, alreadyPersisted, nextRef, said := t.cells, t.persisted, t.nextRef, |t.spoken|;
      spoken, forms, lost, saved, rows := t.spoken, t.forms, {}, [], [];
      start, before := db.rows, Read(db.rows, project);
      new;
      assert Read(db.rows, project)[|before|..] == [];
    }

    /** messages.push of one conversation message. */
    method Push(m: ContextMessage)
      requires Numbered()
      modifies this
      ensures Numbered() && State() == Say(old(State()), [m])
    {
      messages := messages + [Cell(nextRef, Said(said), m)];
      nextRef := nextRef + 1;
      said := said + 1;
      spoken, forms := spoken + [m], forms + [m];
    }

    method PushEphemeral(text: string)
      requires Numbered()
      modifies this
      ensures Numbered() && State() == Remind(old(State()), text)
    {
      messages := messages + [Cell(nextRef, Ephemeral, Plain(User, Text(text)))];
      alreadyPersisted := alreadyPersisted + {nextRef};
      nextRef := nextRef + 1;
    }

    /** persistPartial: a failing database leaves everything as it was. */
    method PersistPartial(now: nat, dbOk: bool)
      requires Linked() && Numbered()
      modifies this, db
      ensures Linked() && Numbered() && State() == PersistIf(old(State()), dbOk)
    {
      if !nested {
        var unsaved := Fresh(messages, alreadyPersisted);
        var closed := CloseDanglingToolCalls(Msgs(unsaved));
        WriteUnsaved(closed, now, dbOk);
        if dbOk {
          alreadyPersisted := alreadyPersisted + Refs(unsaved);
        }
      }
    }

    /** The save at the end of the turn. */
    method SaveAll(now: nat, dbOk: bool)
      requires Linked() && Numbered()
      modifies this, db
      ensures Linked() && Numbered() && State() == if dbOk then FinalSave(old(State())) else old(State())
    {
      if !nested {
        WriteUnsaved(Msgs(Fresh(messages, alreadyPersisted)), now, dbOk);
      }
    }

    /** Stores what is made of the unsaved messages. */
    method WriteUnsaved(ms: seq<ContextMessage>, now: nat, dbOk: bool)
      requires Linked() && Numbered()
      modifies this`rows, this`saved, db
      ensures Linked() && Numbered() && State() == if dbOk then WriteRows(old(State()), ms) else old(State())
    {
      Write(ms, now, dbOk, NonSystem(Fresh(messages, alreadyPersisted)));
    }

    /** persistMessages; `unsaved` is what the rows are made of. */
    method Write(ms: seq<ContextMessage>, now: nat, dbOk: bool, ghost unsaved: seq<Cell>)
      requires Linked()
      modifies this`rows, this`saved, db
      ensures Linked() && rows == if dbOk then old(rows) + StoredForms(WithoutSystem(ms)) else old(rows)
      ensures saved == if dbOk then old(saved) + unsaved else old(saved)
    {
      WriteExtends(db.rows, project, turnIndex, ms, now, before, rows);
      db.PersistMessages(project, ms, turnIndex, now, dbOk);
      if dbOk {
        rows, saved := rows + StoredForms(WithoutSystem(ms)), saved + unsaved;
      }
    }

    /** messages = [...split.head, summaryMsg, ...split.preserved] */
    method PutSummary(h: nat, c: nat, summary: string)
      requires Numbered() && h <= c <= |messages|
      modifies this
      ensures Numbered() && State() == Evict(old(State()), h, c, summary)
    {
      lost := lost + NumberSet(Fresh(messages[h..c], alreadyPersisted));
      messages := messages[..h] + [SummaryCell(nextRef, summary)] + messages[c..];
      alreadyPersisted := alreadyPersisted + {nextRef};
      nextRef := nextRef + 1;
    }

    /** The preferred way to shrink: a summary of the span splitForCompaction evicts, if it finds one. */
    method TrySummary(preserveLastN: nat, summary: Option<string>) returns (summarized: bool)
      requires Numbered()
      modifies this
      ensures summarized == (summary.Some? && FindsSpan(Msgs(old(messages)), preserveLastN))
      ensures Numbered() && State() == if summarized then Summarize(old(State()), preserveLastN, summary.value) else old(State())
    {
      var split := SplitForCompaction(Msgs(messages), preserveLastN);
      summarized := split.Some? && summary.Some?;
      if summarized {
        PutSummary(|split.value.head|, |messages| - |split.value.preserved|, summary.value);
      }
    }

    method CompactContext(force: bool, summary: Option<string>) returns (shrank: bool)
      requires Numbered()
      modifies this
      ensures Numbered() && State() == ContextCompacted(old(State()), env, force, summary)
      ensures shrank <==> TotalTokens(env, Msgs(messages)) < TotalTokens(env, Msgs(old(messages)))
    {
      var tokensBefore := TotalTokens(env, Msgs(messages));
      var summarized := TrySummary(KeepLast(force), summary);
      if !summarized || (force && ShouldCompact(env, Msgs(messages), COMPACT_TO)) {
        var out, _ := CompactMessages(env, Msgs(messages), COMPACT_TO, KeepLast(force));
        Replace(out);
      }
      shrank := TotalTokens(env, Msgs(messages)) < tokensBefore;
    }

    /** messages = result.messages, with persisted membership carried over by position. */
    method Replace(out: seq<ContextMessage>)
      requires Numbered() && |out| == |messages|
      modifies this
      ensures Numbered() && State() == Shrink(old(State()), out)
    {
      var cells := Clones(messages, out, nextRef);
      forms := Reformed(forms, messages, alreadyPersisted, out);
      alreadyPersisted := alreadyPersisted
        + (set i | 0 <= i < |cells| && messages[i].ref in alreadyPersisted :: cells[i].ref);
      messages := cells;
      nextRef := nextRef + |cells|;
    }

    /** msg.content = text on the placeholder of call `j`. */
    method FillIn(p: Pending, text: string, ghost t: Turn, ghost content: Content, ghost calls: seq<ToolCall>, ghost texts: seq<string>)
      requires Numbered() && p.index < |texts| <= |calls| && p.ref == t.nextRef + 1 + p.index
      requires forall i | 0 <= i < |t.cells| :: t.cells[i].ref < t.nextRef
      requires State() == Say(t, PartialBatch(content, calls, texts))
      modifies this
      ensures Numbered() && State() == Say(t, PartialBatch(content, calls, texts[p.index := text]))
    {
      AssignedResult(t, content, calls, texts, p.index, text);
      messages := Assigned(messages, p.ref, text);
      spoken := spoken[|t.spoken| + 1 + p.index := ToolMessage(calls[p.index], text)];
      forms := forms[|t.forms| + 1 + p.index := ToolMessage(calls[p.index], text)];
    }

    /** messages.push of the tool message for the next call. */
    method PushResult(call: ToolCall, text: string, ghost t: Turn, ghost content: Content, ghost calls: seq<ToolCall>, ghost texts: seq<string>)
      requires Numbered() && |texts| < |calls| && call == calls[|texts|]
      requires State() == Say(t, PartialBatch(content, calls, texts))
      modifies this
      ensures Numbered() && State() == Say(t, PartialBatch(content, calls, texts + [text]))
    {
      OneMoreResult(t, content, calls, texts, text);
      Push(ToolMessage(call, text));
    }

    /** What issuing call `i` leaves to be done: a placeholder to fill in, or an image to attach later. */
    static method Note(o: Outcome, parallel: bool, i: nat, ref: nat, lookups: seq<Pending>, spawns: seq<Pending>, images: seq<seq<Part>>,
                       ghost outcomes: seq<Outcome>, ghost first: nat)
      returns (lookups': seq<Pending>, spawns': seq<Pending>, images': seq<seq<Part>>)
      requires i < |outcomes| && o == outcomes[i] && ref == first + i && Noted(outcomes, parallel, first, i, lookups, spawns, images)
      ensures Noted(outcomes, parallel, first, i + 1, lookups', spawns', images')
    {
      lookups', spawns', images' := lookups, spawns, images;
      if o.Spawned? {
        OneMorePending(Waiting(outcomes, true, parallel, i), i, first);
        spawns' := spawns + [Pending(ref, i)];
      } else if o.Executed? && parallel {
        OneMorePending(Waiting(outcomes, false, parallel, i), i, first);
        lookups' := lookups + [Pending(ref, i)];
      } else if o.Executed? {
        images' := images + ImageOf(o);
      }
    }

    /** Issues call `i`: its tool message, with what is known of the result, and what is left to do for it. */
    method IssueOne(i: nat, outcomes: seq<Outcome>, parallel: bool, lookups: seq<Pending>, spawns: seq<Pending>, images: seq<seq<Part>>,
                    ghost t: Turn, ghost content: Content, calls: seq<ToolCall>, ghost texts: seq<string>)
      returns (lookups': seq<Pending>, spawns': seq<Pending>, images': seq<seq<Part>>)
      requires Numbered() && i < |calls| == |outcomes| && |texts| == i
      requires State() == Say(t, PartialBatch(content, calls, texts))
      requires Noted(outcomes, parallel, t.nextRef + 1, i, lookups, spawns, images)
      modifies this
      ensures Numbered() && State() == Say(t, PartialBatch(content, calls, texts + [FirstText(outcomes[i], parallel)]))
      ensures Noted(outcomes, parallel, t.nextRef + 1, i + 1, lookups', spawns', images')
    {
      lookups', spawns', images' := Note(outcomes[i], parallel, i, nextRef, lookups, spawns, images, outcomes, t.nextRef + 1);
      PushResult(calls[i], FirstText(outcomes[i], parallel), t, content, calls, texts);
    }

    /** The loop over the calls of a batch. It stops at moment `stopAt`, when an interrupt ends the batch. */
    method IssueCalls(calls: seq<ToolCall>, outcomes: seq<Outcome>, parallel: bool, stopAt: nat,
                      ghost t: Turn, ghost content: Content)
      returns (stopped: bool, lookups: seq<Pending>, spawns: seq<Pending>, images: seq<seq<Part>>, ghost texts: seq<string>)
      requires Numbered() && |outcomes| == |calls|
      requires State() == Say(t, [CallMessage(content, calls)])
      modifies this
      ensures stopped <==> stopAt < |calls|
      ensures texts == FirstTexts(outcomes, parallel, if stopped then stopAt else |calls|)
      ensures Numbered() && State() == Say(t, PartialBatch(content, calls, texts))
      ensures !stopped ==> Noted(outcomes, parallel, t.nextRef + 1, |calls|, lookups, spawns, images)
    {
      lookups, spawns, images, texts := [], [], [], [];
      EmptyBatch(content, calls);
      var i := 0;
      while i < |calls|
        invariant 0 <= i <= |calls| && i <= stopAt
        invariant texts == FirstTexts(outcomes, parallel, i)
        invariant Numbered() && State() == Say(t, PartialBatch(content, calls, texts))
        invariant Noted(outcomes, parallel, t.nextRef + 1, i, lookups, spawns, images)
      {
        if i == stopAt {
          return true, lookups, spawns, images, texts;
        }
        lookups, spawns, images := IssueOne(i, outcomes, parallel, lookups, spawns, images, t, content, calls, texts);
        OneMoreText(outcomes, parallel, i);
        texts := texts + [FirstText(outcomes[i], parallel)];
        i := i + 1;
      }
      stopped := false;
    }

    /** Waits for pending calls in order and fills in their results; `moment` counts on towards `stopAt`. */
    method Collect(ps: seq<Pending>, outcomes: seq<Outcome>, moment: nat, stopAt: nat, images: seq<seq<Part>>,
                   ghost order: seq<nat>, ghost t: Turn, ghost content: Content, ghost calls: seq<ToolCall>, ghost texts: seq<string>)
      returns (stopped: bool, all: seq<seq<Part>>, ghost filled: seq<string>)
      requires Numbered() && |outcomes| == |calls| == |texts| && moment <= stopAt
      requires forall i | 0 <= i < |t.cells| :: t.cells[i].ref < t.nextRef
      requires State() == Say(t, PartialBatch(content, calls, texts))
      requires Indices(order, |calls|) && ps == Pendings(order, t.nextRef + 1)
      modifies this
      ensures stopped <==> stopAt < moment + |ps|
      ensures filled == Filled(texts, outcomes, order, if stopped then stopAt - moment else |order|)
      ensures Numbered() && State() == Say(t, PartialBatch(content, calls, filled))
      ensures !stopped ==> all == images + ImagesAlong(outcomes, order, |order|)
    {
      all, filled := images, texts;
      var k := 0;
      while k < |ps|
        invariant 0 <= k <= |ps| && moment + k <= stopAt
        invariant filled == Filled(texts, outcomes, order, k)
        invariant Numbered() && State() == Say(t, PartialBatch(content, calls, filled))
        invariant all == images + ImagesAlong(outcomes, order, k)
      {
        if moment + k == stopAt {
          return true, all, filled;
        }
        var text := Result(outcomes[ps[k].index]);
        FillIn(ps[k], text, t, content, calls, filled);
        all, filled := all + ImageOf(outcomes[ps[k].index]), filled[ps[k].index := text];
        k := k + 1;
      }
      stopped := false;
    }

    /** The reads of a batch. */
    method CollectReads(lookups: seq<Pending>, outcomes: seq<Outcome>, parallel: bool, stopAt: nat, images: seq<seq<Part>>,
                        ghost t: Turn, ghost content: Content, ghost calls: seq<ToolCall>, ghost order: seq<nat>, ghost texts: seq<string>)
      returns (stopped: bool, all: seq<seq<Part>>, ghost filled: seq<string>)
      requires Numbered() && |outcomes| == |calls| <= stopAt
      requires forall i | 0 <= i < |t.cells| :: t.cells[i].ref < t.nextRef
      requires texts == FirstTexts(outcomes, parallel, |calls|) && State() == Say(t, PartialBatch(content, calls, texts))
      requires order == Waiting(outcomes, false, parallel, |calls|) && lookups == Pendings(order, t.nextRef + 1)
      modifies this
      ensures stopped <==> stopAt < |calls| + |order|
      ensures stopped ==> stopAt < Moments(outcomes, parallel) && filled == TextsAt(outcomes, parallel, stopAt)
      ensures !stopped ==> filled == Filled(texts, outcomes, order, |order|)
      ensures Numbered() && State() == Say(t, PartialBatch(content, calls, filled))
      ensures !stopped ==> all == images + ImagesAlong(outcomes, order, |order|)
    {
      stopped, all, filled := Collect(lookups, outcomes, |outcomes|, stopAt, images, order, t, content, calls, texts);
      if stopped {
        TextsReading(outcomes, parallel, order, stopAt);
      }
    }

    /** The reports of its sub-agents. */
    method CollectReports(spawns: seq<Pending>, outcomes: seq<Outcome>, parallel: bool, moment: nat, stopAt: nat, images: seq<seq<Part>>,
                          ghost t: Turn, ghost content: Content, ghost calls: seq<ToolCall>, ghost ahead: seq<nat>, ghost order: seq<nat>,
                          ghost texts: seq<string>, ghost read: seq<string>)
      returns (stopped: bool, all: seq<seq<Part>>, ghost filled: seq<string>)
      requires Numbered() && |outcomes| == |calls| && moment == |calls| + |ahead| <= stopAt
      requires forall i | 0 <= i < |t.cells| :: t.cells[i].ref < t.nextRef
      requires texts == FirstTexts(outcomes, parallel, |calls|) && ahead == Waiting(outcomes, false, parallel, |calls|)
      requires read == Filled(texts, outcomes, ahead, |ahead|) && State() == Say(t, PartialBatch(content, calls, read))
      requires order == Waiting(outcomes, true, parallel, |calls|) && spawns == Pendings(order, t.nextRef + 1)
      modifies this
      ensures stopped <==> stopAt < Moments(outcomes, parallel)
      ensures filled == if stopped then TextsAt(outcomes, parallel, stopAt) else Results(outcomes)
      ensures Numbered() && State() == Say(t, PartialBatch(content, calls, filled))
      ensures !stopped ==> all == images + ImagesAlong(outcomes, order, |order|)
    {
      stopped, all, filled := Collect(spawns, outcomes, moment, stopAt, images, order, t, content, calls, read);
      if stopped {
        TextsReporting(outcomes, parallel, ahead, order, stopAt);
      } else {
        AllCollected(outcomes, parallel, ahead, order, texts, read);
      }
    }

    /** Reads first, then sub-agents. */
    method CollectAll(lookups: seq<Pending>, spawns: seq<Pending>, outcomes: seq<Outcome>, parallel: bool, stopAt: nat, images: seq<seq<Part>>,
                      ghost t: Turn, ghost content: Content, ghost calls: seq<ToolCall>, ghost firsts: seq<string>)
      returns (stopped: bool, all: seq<seq<Part>>, ghost filled: seq<string>)
      requires Numbered() && |outcomes| == |calls| <= stopAt
      requires forall i | 0 <= i < |t.cells| :: t.cells[i].ref < t.nextRef
      requires firsts == FirstTexts(outcomes, parallel, |calls|) && State() == Say(t, PartialBatch(content, calls, firsts))
      requires Noted(outcomes, parallel, t.nextRef + 1, |calls|, lookups, spawns, images)
      modifies this
      ensures stopped <==> stopAt < Moments(outcomes, parallel)
      ensures filled == if stopped then TextsAt(outcomes, parallel, stopAt) else Results(outcomes)
      ensures Numbered() && State() == Say(t, PartialBatch(content, calls, filled))
      ensures !stopped ==> all == AttachedImages(outcomes, |calls|)
    {
      ghost var a, b := Waiting(outcomes, false, parallel, |calls|), Waiting(outcomes, true, parallel, |calls|);
      stopped, all, filled := CollectReads(lookups, outcomes, parallel, stopAt, images, t, content, calls, a, firsts);
      if !stopped {
        stopped, all, filled :=
          CollectReports(spawns, outcomes, parallel, |outcomes| + |lookups|, stopAt, all, t, content, calls, a, b, firsts, filled);
        AttachedInCallOrder(outcomes, parallel, images, a, b);
      }
    }

    /** A whole tool batch: calls are issued in order, reads and sub-agents collected afterwards, images
        attached behind all results. A batch that is not cut short adds, in call order, exactly one result
        per call; a batch cut at some moment has the texts of that moment. */
    method ExecuteToolCalls(content: Content, calls: seq<ToolCall>, outcomes: seq<Outcome>, stopAt: nat) returns (stopped: bool)
      requires Numbered() && |outcomes| == |calls|
      requires forall i | 0 <= i < |messages| :: messages[i].ref < nextRef
      modifies this
      ensures Numbered() && (stopped <==> BatchIsCut(calls, outcomes, stopAt))
      ensures stopped ==> State() == Say(old(State()), CutBatch(CutOf(content, calls, outcomes, stopAt)))
      ensures !stopped ==> State() == Say(old(State()), WholeBatch(content, calls, outcomes))
      ensures stopped <==> EndsEarly(calls, outcomes, stopAt)
      ensures exists ms :: Shown(State()) == Shown(old(State())) + ms && SaysBatch(ms, content, calls, outcomes, stopAt)
    {
      stopped := IssueAndCollect(content, calls, outcomes, stopAt);
      BatchShows(old(State()), State(), content, calls, outcomes, stopAt);
    }

    method IssueAndCollect(content: Content, calls: seq<ToolCall>, outcomes: seq<Outcome>, stopAt: nat) returns (stopped: bool)
      requires Numbered() && |outcomes| == |calls|
      requires forall i | 0 <= i < |messages| :: messages[i].ref < nextRef
      modifies this
      ensures Numbered() && (stopped <==> BatchIsCut(calls, outcomes, stopAt))
      ensures stopped ==> State() == Say(old(State()), CutBatch(CutOf(content, calls, outcomes, stopAt)))
      ensures !stopped ==> State() == Say(old(State()), WholeBatch(content, calls, outcomes))
    {
      ghost var t := State();
      var parallel := Parallel(calls);
      Push(CallMessage(content, calls));
      var lookups, spawns, attached;
      ghost var texts;
      stopped, lookups, spawns, attached, texts := IssueCalls(calls, outcomes, parallel, stopAt, t, content);
      if !stopped {
        stopped, attached, texts := CollectAll(lookups, spawns, outcomes, parallel, stopAt, attached, t, content, calls, texts);
        if !stopped {
          PushImages(attached);
          SayMore(t, PartialBatch(content, calls, Results(outcomes)), ImageMessages(attached));
        }
      }
    }

    method PushImages(images: seq<seq<Part>>)
      requires Numbered()
      modifies this
      ensures Numbered() && State() == Say(old(State()), ImageMessages(images))
    {
      ghost var t := State();
      SayNothing(t);
      assert ImageMessages(images[..0]) == [];
      for i := 0 to |images|
        invariant Numbered() && State() == Say(t, ImageMessages(images[..i]))
      {
        Push(Plain(User, Parts(images[i])));
        SayMore(t, ImageMessages(images[..i]), [Plain(User, Parts(images[i]))]);
        assert ImageMessages(images[..i]) + [Plain(User, Parts(images[i]))] == ImageMessages(images[..i + 1]);
      }
      assert images[..|images|] == images;
    }

    /** Two messages: what the model said, and what the loop asks of it next. */
    method PushExchange(reply: Content, request: string)
      requires Numbered()
      modifies this
      ensures Numbered() && State() == Say(old(State()), Exchange(reply, request))
    {
      ghost var t := State();
      Push(Plain(Assistant, reply));
      Push(Plain(User, Text(request)));
      SayMore(t, [Plain(Assistant, reply)], [Plain(User, Text(request))]);
      assert [Plain(Assistant, reply)] + [Plain(User, Text(request))] == Exchange(reply, request);
    }

    /** The final reply joins the history unless it is empty. */
    method PushReply(reply: Content)
      requires Numbered()
      modifies this
      ensures Numbered() && State() == Say(old(State()), Saying(reply))
    {
      SayNothing(State());
      if reply != NoContent {
        Push(Plain(Assistant, reply));
      }
    }

    /** The messages the user queued while the agent was running. */
    method PushQueued(queued: seq<string>)
      requires Numbered()
      modifies this
      ensures Numbered() && State() == Say(old(State()), Users(queued))
    {
      ghost var t := State();
      SayNothing(t);
      assert Users(queued[..0]) == [];
      for i := 0 to |queued|
        invariant Numbered() && State() == Say(t, Users(queued[..i]))
      {
        Push(Plain(User, Text(queued[i])));
        SayMore(t, Users(queued[..i]), [Plain(User, Text(queued[i]))]);
        assert Users(queued[..i]) + [Plain(User, Text(queued[i]))] == Users(queued[..i + 1]);
      }
      assert queued[..|queued|] == queued;
    }

    /** Before the model call: queued user messages, the budget warning, compaction at 60 % of the window. */
    method Prepare(step: Step, warn: bool) returns (failed: bool)
      requires Numbered()
      modifies this
      ensures Numbered() && State() == Prepared(old(State()), step, warn, env)
      ensures failed == PrepareFails(old(State()), step, warn, env)
    {
      PushQueued(step.queued);
      if warn {
        PushEphemeral(step.notice);
      }
      failed := false;
      if ShouldCompact(env, Msgs(messages), COMPACT_AT) {
        if step.compaction.Interrupted? {
          failed := true;
        } else {
          var _ := CompactContext(false, SummaryText(step.compaction));
        }
      }
    }

    /** The error and cancellation handler: save what there is. */
    method EndEarly(now: nat, handlerOk: bool)
      requires Linked() && Numbered()
      modifies this, db
      ensures Linked() && Numbered() && State() == PersistIf(old(State()), handlerOk)
    {
      PersistPartial(now, handlerOk);
    }

    /** A failed model call: compact and retry if the prompt was too long, else back off and retry, each
        a limited number of times. */
    method Recover(c: Control, tooLong: bool, recovery: Attempt, cause: Interrupt, now: nat, handlerOk: bool) returns (p: Progress)
      requires Linked() && Numbered()
      modifies this, db
      ensures Linked() && Numbered() && Reached(Recovered(c, old(State()), tooLong, recovery, env, cause, handlerOk), p)
    {
      if tooLong && c.contextRetries < MAX_CONTEXT_RETRIES {
        p := CompactAndRetry(c, recovery, cause, now, handlerOk);
        return;
      }
      if c.llmRetries < MAX_LLM_RETRIES && !recovery.Interrupted? {
        return GoOn(c.(llmRetries := c.llmRetries + 1));
      }
      p := GiveUp(if c.llmRetries < MAX_LLM_RETRIES then recovery.cause else cause, now, handlerOk);
    }

    method GiveUp(cause: Interrupt, now: nat, handlerOk: bool) returns (p: Progress)
      requires Linked() && Numbered()
      modifies this, db
      ensures Linked() && Numbered() && Reached(Handled(InterruptReason(cause), old(State()), handlerOk), p)
    {
      EndEarly(now, handlerOk);
      p := Stop(InterruptReason(cause), None);
    }

    method CompactAndRetry(c: Control, recovery: Attempt, cause: Interrupt, now: nat, handlerOk: bool) returns (p: Progress)
      requires Linked() && Numbered()
      modifies this, db
      ensures Linked() && Numbered() && Reached(Compacting(c, old(State()), recovery, env, cause, handlerOk), p)
    {
      if recovery.Interrupted? {
        p := GiveUp(recovery.cause, now, handlerOk);
        return;
      }
      ghost var t := State();
      var shrank := CompactContext(true, SummaryText(recovery));
      assert shrank == Shrank(t, State(), env);
      p := RetryIf(shrank, c, cause, now, handlerOk, t);
    }

    method RetryIf(shrank: bool, c: Control, cause: Interrupt, now: nat, handlerOk: bool, ghost t: Turn) returns (p: Progress)
      requires Linked() && Numbered() && shrank == Shrank(t, State(), env)
      modifies this, db
      ensures Linked() && Numbered() && Reached(Retried(c, t, old(State()), env, cause, handlerOk), p)
    {
      if shrank {
        return GoOn(c.(contextRetries := c.contextRetries + 1));
      }
      p := GiveUp(cause, now, handlerOk);
    }

    /** The challenges are tried in turn. */
    method Challenge(v: Verdicts, nudges: map<NudgeKind, nat>) returns (fired: Option<NudgeKind>)
      ensures fired == Fires(v, nudges)
    {
      fired := None;
      if v.textToolCall && Used(nudges, TextToolCall) < NudgeLimit(TextToolCall) {
        fired := Some(TextToolCall);
      } else if v.noAction && Used(nudges, NoAction) < NudgeLimit(NoAction) {
        fired := Some(NoAction);
      } else if v.unverified && Used(nudges, Unverified) < NudgeLimit(Unverified) {
        fired := Some(Unverified);
      } else if v.failedVerification && Used(nudges, FailedVerification) < NudgeLimit(FailedVerification) {
        fired := Some(FailedVerification);
      } else if Used(nudges, StopHook) < NudgeLimit(StopHook) && v.stopHook {
        fired := Some(StopHook);
      }
    }

    /** A reply without tool calls ends the turn, unless it is challenged. */
    method FinishOrNudge(reply: Content, v: Verdicts, request: string, nudges: map<NudgeKind, nat>)
      returns (done: bool, nudges': map<NudgeKind, nat>)
      requires Numbered()
      modifies this
      ensures Numbered() && (done <==> Fires(v, nudges).None?)
      ensures done ==> State() == Say(old(State()), Saying(reply)) && nudges' == nudges
      ensures !done ==> State() == Say(old(State()), Exchange(reply, request))
      ensures !done ==> nudges' == nudges[Fires(v, nudges).value := Used(nudges, Fires(v, nudges).value) + 1]
    {
      var fired := Challenge(v, nudges);
      if fired.Some? {
        PushExchange(reply, request);
        return false, nudges[fired.value := Used(nudges, fired.value) + 1];
      }
      PushReply(reply);
      done, nudges' := true, nudges;
    }

    /** A step that uses tools: its batch is complete and saved, or the turn ends in it. A cut batch is saved
        by the error handler, except after the user chose "Cancel Run", which returns at once. */
    method UseTools(c: Control, content: Content, calls: seq<ToolCall>, outcomes: seq<Outcome>, stopAt: nat, stop: BatchStop,
                    dbOk: bool, now: nat, handlerOk: bool) returns (p: Progress)
      requires Linked() && Numbered() && |outcomes| == |calls|
      requires forall i | 0 <= i < |messages| :: messages[i].ref < nextRef
      modifies this, db
      ensures Linked() && Numbered()
      ensures Reached(ToolsUsed(c, old(State()), content, calls, outcomes, stopAt, stop, dbOk, handlerOk), p)
    {
      var stopped := ExecuteToolCalls(content, calls, outcomes, stopAt);
      if stopped {
        SaveCut(stop, now, handlerOk);
        p := Stop(StopReason(stop), Some(CutOf(content, calls, outcomes, stopAt)));
      } else {
        PersistPartial(now, dbOk);
        p := GoOn(c.(llmRetries := 0, truncations := 0));
      }
    }

    method SaveCut(stop: BatchStop, now: nat, handlerOk: bool)
      requires Linked() && Numbered()
      modifies this, db
      ensures Linked() && Numbered()
      ensures State() == if stop.CancelRunChosen? then old(State()) else PersistIf(old(State()), handlerOk)
    {
      if !stop.CancelRunChosen? {
        EndEarly(now, handlerOk);
      }
    }

    /** A reply that was cut off is asked to go on, a limited number of times in a row. */
    method Continue(c: Control, text: Content, request: string, cause: Interrupt, now: nat, handlerOk: bool) returns (p: Progress)
      requires Linked() && Numbered()
      modifies this, db
      ensures Linked() && Numbered() && Reached(Continued(c, old(State()), text, request, cause, handlerOk), p)
    {
      if c.truncations + 1 > MAX_TRUNCATIONS {
        p := GiveUp(cause, now, handlerOk);
      } else {
        PushExchange(text, request);
        p := GoOn(c.(llmRetries := 0, truncations := c.truncations + 1));
      }
    }

    method Finish(c: Control, text: Content, verdicts: Verdicts, request: string) returns (p: Progress)
      requires Linked() && Numbered()
      modifies this
      ensures Linked() && Numbered() && Reached(Replied(c, old(State()), text, verdicts, request), p)
    {
      var done, nudges := FinishOrNudge(text, verdicts, request, c.nudges);
      p := if done then Leave(Completed) else GoOn(c.(llmRetries := 0, truncations := 0, nudges := nudges));
    }

    /** What the loop does with the outcome of the model call. */
    method Answer(c: Control, r: Reply, now: nat, handlerOk: bool) returns (p: Progress)
      requires Linked() && Numbered() && (r.ToolUse? ==> |r.outcomes| == |r.calls|)
      requires forall i | 0 <= i < |messages| :: messages[i].ref < nextRef
      modifies this, db
      ensures Linked() && Numbered() && Reached(Answered(c, old(State()), r, env, handlerOk), p)
    {
      if r.Finished? {
        p := Finish(c, r.reply, r.verdicts, r.request);
      } else if r.ToolUse? {
        p := UseTools(c, r.content, r.calls, r.outcomes, r.stopAt, r.stop, r.dbOk, now, handlerOk);
      } else {
        p := AnswerFailure(c, r, now, handlerOk);
      }
    }

    /** No complete reply: the call was given up, rejected or cut off. */
    method AnswerFailure(c: Control, r: Reply, now: nat, handlerOk: bool) returns (p: Progress)
      requires Linked() && Numbered() && (r.Aborted? || r.Rejected? || r.CutOff?)
      modifies this, db
      ensures Linked() && Numbered() && Reached(Answered(c, old(State()), r, env, handlerOk), p)
    {
      if r.Aborted? {
        p := GiveUp(r.cause, now, handlerOk);
      } else if r.Rejected? {
        p := Recover(c, r.tooLong, r.recovery, r.cause, now, handlerOk);
      } else {
        p := Continue(c, r.text, r.request, r.cause, now, handlerOk);
      }
    }

    /** One round of the main loop. */
    method TakeStep(c: Control, s: Step, maxSteps: nat, now: nat, handlerOk: bool) returns (p: Progress)
      requires Linked() && Numbered() && Inv(State())
      modifies this, db
      ensures Linked() && Numbered() && Reached(Stepped(c, old(State()), s, env, maxSteps, handlerOk), p)
    {
      if s.cancelled {
        p := GiveUp(Cancellation, now, handlerOk);
        return;
      }
      if s.timeUp {
        return Leave(Timeout);
      }
      ghost var t := State();
      var warn := c.step == maxSteps - BUDGET_WARNING_STEPS + 1;
      PreparedKeeps(t, s, warn, env);
      var failed := Prepare(s, warn);
      if failed {
        p := GiveUp(s.compaction.cause, now, handlerOk);
        return;
      }
      p := Answer(c, s.reply, now, handlerOk);
    }

    /** The main loop. */
    method TakeSteps(script: seq<Step>, maxSteps: nat, now: nat, handlerOk: bool) returns (p: Progress)
      requires Linked() && Numbered() && Inv(State()) && maxSteps <= |script|
      modifies this, db
      ensures Linked() && Numbered()
      ensures Reached(Looped(Stepper(env, maxSteps, handlerOk), FIRST, old(State()), script, maxSteps), p)
    {
      var c := FIRST;
      ghost var next := Stepper(env, maxSteps, handlerOk);
      ghost var all := Looped(next, c, State(), script, maxSteps);
      StepperIsGood(env, maxSteps, handlerOk);
      while c.step <= maxSteps
        invariant Linked() && Numbered() && Inv(State()) && c.step >= 1
        invariant Looped(next, c, State(), script, maxSteps) == all
        decreases maxSteps + 1 - c.step
      {
        ghost var t := State();
        p := TakeStep(c, script[c.step - 1], maxSteps, now, handlerOk);
        assert GoodStep(t, next(c, t, script[c.step - 1]), handlerOk);
        if !p.GoOn? {
          return;
        }
        c := NextStep(p.c, c.step);
      }
      p := Leave(MaxSteps);
    }

    /** The final save. If it fails, or something after it does, the error handler saves once more. */
    method Conclude(now: nat, ending: Ending)
      requires Linked() && Numbered()
      modifies this, db
      ensures Linked() && Numbered()
      ensures forall reason :: State() == Concluded(reason, old(State()), ending).turn
    {
      SaveAll(now, ending.saveOk);
      if !ending.saveOk || ending.lateFailure {
        PersistPartial(now, ending.handlerOk);
      }
    }

    /** The loop and the final save. */
    method Run(script: seq<Step>, maxSteps: nat, now: nat, ending: Ending) returns (reason: Reason, cut: Option<Cut>)
      requires Linked() && Numbered() && Inv(State()) && maxSteps <= |script|
      modifies this, db
      ensures Linked() && Comes(Ran(old(State()), script, env, maxSteps, ending), reason, cut)
    {
      var p := TakeSteps(script, maxSteps, now, ending.handlerOk);
      if p.Stop? {
        return p.reason, p.cut;
      }
      Conclude(now, ending);
      reason := if ending.saveOk && !ending.lateFailure then p.reason else InterruptReason(ending.cause);
      cut := None;
    }

    /** Context of this turn only: the unfinished plan, the open file, what session hooks print. */
    method PushContext(text: Option<string>)
      requires Linked() && Numbered() && Inv(State())
      modifies this
      ensures Linked() && Numbered() && Inv(State()) && State() == RemindIf(old(State()), text)
    {
      RemindIfKeeps(State(), text);
      if text.Some? {
        PushEphemeral(text.value);
      }
    }

    method PushPlan(text: string)
      requires Linked() && Numbered() && Inv(State())
      modifies this
      ensures Linked() && Numbered() && Inv(State()) && State() == Say(old(State()), Exchange(Text(text), EXECUTE_PLAN))
    {
      SpeechKeeps(State(), Exchange(Text(text), EXECUTE_PLAN));
      PushExchange(Text(text), EXECUTE_PLAN);
    }

    /** The plan the model makes upfront, and the loop. */
    method PlanAndRun(planning: Planning, script: seq<Step>, maxSteps: nat, now: nat, ending: Ending)
      returns (reason: Reason, cut: Option<Cut>)
      requires Linked() && Numbered() && Inv(State()) && maxSteps <= |script|
      modifies this, db
      ensures Linked() && Comes(Planned(old(State()), planning, script, env, maxSteps, ending), reason, cut)
    {
      if planning.PlanningStopped? {
        EndEarly(now, ending.handlerOk);
        return InterruptReason(planning.cause), None;
      }
      if planning.Plan? {
        PushPlan(planning.text);
      }
      reason, cut := Run(script, maxSteps, now, ending);
    }

    /** A whole turn: what precedes the loop, and the loop. */
    method RunTurn(opening: Opening, script: seq<Step>, maxSteps: nat, now: nat, ending: Ending)
      returns (reason: Reason, cut: Option<Cut>, ghost e: End)
      requires Linked() && Numbered() && Inv(State()) && maxSteps <= |script|
      modifies this, db
      ensures e == Played(old(State()), opening, script, env, maxSteps, ending)
      ensures Linked() && Comes(e, reason, cut)
    {
      ghost var t := State();
      e := Played(t, opening, script, env, maxSteps, ending);
      PushContext(opening.plan);
      PushContext(opening.openFile);
      if opening.promptHook.Blocked? {
        return PromptBlocked, None, e;
      }
      if opening.promptHook.HookStopped? {
        EndEarly(now, ending.handlerOk);
        return InterruptReason(opening.promptHook.cause), None, e;
      }
      PushContext(opening.session);
      reason, cut := PlanAndRun(opening.planning, script, maxSteps, now, ending);
    }

    /** The loop has come to where the flow leads. */
    ghost predicate Reached(f: Flow, p: Progress)
      reads this
    {
      State() == f.t && p == ProgressOf(f)
    }

    /** The turn has come to this end. */
    ghost predicate Comes(e: End, reason: Reason, cut: Option<Cut>)
      reads this
    {
      State() == e.turn && reason == e.reason && cut == e.cut
    }
  }

  /** What a step says to the loop around it. */
  datatype Progress = GoOn(c: Control) | Leave(reason: Reason) | Stop(reason: Reason, cut: Option<Cut>)

  function ProgressOf(f: Flow): Progress {
    match f
    case Going(c, _) => GoOn(c)
    case Leaving(reason, _) => Leave(reason)
    case Ended(reason, _, cut) => Stop(reason, cut)
  }

  // ---------------------------------------------------------------------------------------------
  // A batch in progress

  function Pendings(order: seq<nat>, ref: nat): (r: seq<Pending>)
    ensures |r| == |order|
  {
    seq(|order|, k requires 0 <= k < |order| => Pending(ref + order[k], order[k]))
  }

  lemma OneMorePending(order: seq<nat>, i: nat, ref: nat)
    ensures Pendings(order + [i], ref) == Pendings(order, ref) + [Pending(ref + i, i)]
  {
  }

  lemma OneMoreText(outcomes: seq<Outcome>, parallel: bool, i: nat)
    requires i < |outcomes|
    ensures FirstTexts(outcomes, parallel, i + 1) == FirstTexts(outcomes, parallel, i) + [FirstText(outcomes[i], parallel)]
  {
  }

  /** What has been noted after issuing the first `n` calls. */
  ghost predicate Noted(outcomes: seq<Outcome>, parallel: bool, ref: nat, n: nat,
                        lookups: seq<Pending>, spawns: seq<Pending>, images: seq<seq<Part>>)
    requires n <= |outcomes|
  {
    && lookups == Pendings(Waiting(outcomes, false, parallel, n), ref)
    && spawns == Pendings(Waiting(outcomes, true, parallel, n), ref)
    && images == if parallel then [] else AttachedImages(outcomes, n)
  }

  lemma SayNothing(t: Turn)
    ensures Say(t, []) == t
  {
    assert t.cells + NewCells([], t.nextRef, |t.spoken|) == t.cells && t.spoken + [] == t.spoken && t.forms + [] == t.forms;
  }

  lemma SayMore(t: Turn, a: seq<ContextMessage>, b: seq<ContextMessage>)
    ensures Say(Say(t, a), b) == Say(t, a + b)
  {
    assert t.cells + NewCells(a, t.nextRef, |t.spoken|) + NewCells(b, t.nextRef + |a|, |t.spoken| + |a|)
        == t.cells + NewCells(a + b, t.nextRef, |t.spoken|);
  }

  lemma EmptyBatch(content: Content, calls: seq<ToolCall>)
    ensures PartialBatch(content, calls, []) == [CallMessage(content, calls)]
  {
  }

  lemma OneMoreResult(t: Turn, content: Content, calls: seq<ToolCall>, texts: seq<string>, text: string)
    requires |texts| < |calls|
    ensures Say(Say(t, PartialBatch(content, calls, texts)), [ToolMessage(calls[|texts|], text)])
         == Say(t, PartialBatch(content, calls, texts + [text]))
  {
    SayMore(t, PartialBatch(content, calls, texts), [ToolMessage(calls[|texts|], text)]);
    assert PartialBatch(content, calls, texts) + [ToolMessage(calls[|texts|], text)]
        == PartialBatch(content, calls, texts + [text]);
  }

  /** What a batch shows behind what was shown before. */
  lemma BatchShows(t: Turn, u: Turn, content: Content, calls: seq<ToolCall>, outcomes: seq<Outcome>, stopAt: nat)
    requires |outcomes| == |calls|
    requires u == Say(t, if BatchIsCut(calls, outcomes, stopAt) then CutBatch(CutOf(content, calls, outcomes, stopAt))
                         else WholeBatch(content, calls, outcomes))
    ensures BatchIsCut(calls, outcomes, stopAt) <==> EndsEarly(calls, outcomes, stopAt)
    ensures exists ms :: Shown(u) == Shown(t) + ms && SaysBatch(ms, content, calls, outcomes, stopAt)
  {
    var ms := if BatchIsCut(calls, outcomes, stopAt) then CutBatch(CutOf(content, calls, outcomes, stopAt)) else WholeBatch(content, calls, outcomes);
    MomentsCounted(calls, outcomes, stopAt);
    BatchSpeaks(content, calls, outcomes, stopAt, ms);
    SayingShows(t, ms);
    assert Shown(u) == Shown(t) + ms && SaysBatch(ms, content, calls, outcomes, stopAt);
  }

  /** msg.content = text, through the object reference. */
  function Assigned(cells: seq<Cell>, ref: nat, text: string): (r: seq<Cell>)
    ensures |r| == |cells|
  {
    seq(|cells|, i requires 0 <= i < |cells| =>
      if cells[i].ref == ref then cells[i].(msg := cells[i].msg.(content := Text(text))) else cells[i])
  }

  /** Filling in a placeholder is as if the message had been pushed with that text. */
  lemma AssignedResult(t: Turn, content: Content, calls: seq<ToolCall>, texts: seq<string>, j: nat, text: string)
    requires j < |texts| <= |calls| && forall i | 0 <= i < |t.cells| :: t.cells[i].ref < t.nextRef
    ensures Assigned(Say(t, PartialBatch(content, calls, texts)).cells, t.nextRef + 1 + j, text)
         == Say(t, PartialBatch(content, calls, texts[j := text])).cells
    ensures Say(t, PartialBatch(content, calls, texts)).spoken[|t.spoken| + 1 + j := ToolMessage(calls[j], text)]
         == Say(t, PartialBatch(content, calls, texts[j := text])).spoken
    ensures Say(t, PartialBatch(content, calls, texts)).forms[|t.forms| + 1 + j := ToolMessage(calls[j], text)]
         == Say(t, PartialBatch(content, calls, texts[j := text])).forms
  {
  }

  // ---------------------------------------------------------------------------------------------
  // The table

  /** The table is in order, `turn` is the project's latest, the rows `before` are still there, and
      behind them, under this turn, are exactly `rows`. */
  ghost predicate LinkedTo(table: seq<Row>, project: string, turn: nat, before: seq<Row>, rows: seq<ContextMessage>) {
    UniqueKeys(table) && LatestTurn(table, project) <= turn &&
    before <= Read(table, project) && Messages(Read(table, project)[|before|..]) == rows &&
    AllOfTurn(Read(table, project)[|before|..], turn)
  }

  /** All projects but this one have the rows they had. */
  ghost predicate SameElsewhere(before: seq<Row>, after: seq<Row>, project: string) {
    forall q | q != project :: Read(after, q) == Read(before, q)
  }

  ghost predicate AllOfTurn(s: seq<Row>, turn: nat) { forall k | 0 <= k < |s| :: s[k].turn == turn }

  /** A batch saved for the latest turn extends what the turn has written, and nothing else. */
  lemma WriteExtends(table: seq<Row>, project: string, turn: nat, ms: seq<ContextMessage>, now: nat,
                     before: seq<Row>, rows: seq<ContextMessage>)
    requires LinkedTo(table, project, turn, before, rows)
    ensures LinkedTo(table + BatchRows(table, project, turn, ms, now), project, turn, before,
                     rows + StoredForms(WithoutSystem(ms)))
    ensures SameElsewhere(table, table + BatchRows(table, project, turn, ms, now), project)
  {
    BatchIsAppended(table, project, turn, ms, now);
    MessagesBehind(Read(table, project), before, project, turn, MaxSeq(table, project, turn) + 1, WithoutSystem(ms), now);
    BatchTurn(table, project, turn, ms, now);
  }

  lemma MessagesBehind(
    s: seq<Row>, before: seq<Row>, project: string, turn: nat, base: nat, ms: seq<ContextMessage>, now: nat)
    requires before <= s
    ensures before <= s + NewRows(project, turn, base, ms, now)
    ensures Messages((s + NewRows(project, turn, base, ms, now))[|before|..]) == Messages(s[|before|..]) + StoredForms(ms)
    ensures AllOfTurn(s[|before|..], turn) ==> AllOfTurn((s + NewRows(project, turn, base, ms, now))[|before|..], turn)
  {
    var batch := NewRows(project, turn, base, ms, now);
    assert (s + batch)[|before|..] == s[|before|..] + batch;
  }

  lemma BatchTurn(rows: seq<Row>, project: string, turn: nat, ms: seq<ContextMessage>, now: nat)
    requires LatestTurn(rows, project) <= turn
    ensures LatestTurn(rows + BatchRows(rows, project, turn, ms, now), project) <= turn
  {
    var batch := BatchRows(rows, project, turn, ms, now);
    assert forall x | x in rows + batch :: x in rows || x in batch;
  }
}
