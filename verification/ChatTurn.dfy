/** A chat turn from the table and back: load the recent history, store the prompt, run the loop; and the
    rewind that undoes turns. */
module ChatTurn {
  import opened Options
  import opened Conversation
  import opened Compaction
  import opened MessageTable
  import opened MessageDb
  import opened AgentTurn
  import opened TurnSafety
  import opened TurnPlay
  import opened TurnOutcome
  import opened AgentLoop

  const HISTORY_LIMIT: nat := 300

  /** The project's rows are well paired, and no turn starts with a tool message. */
  ghost predicate PairedByTurn(s: seq<Row>) {
    WellPaired(Messages(s)) && forall i | 0 < i < |s| && s[i].turn != s[i - 1].turn :: s[i].msg.role != Tool
  }

  ghost predicate Transcript(table: seq<Row>, project: string) {
    UniqueKeys(table) && PairedByTurn(Read(table, project))
  }

  /** Messages as the model is shown them: attachments and mentions are expanded, and the name of the tool is
      lost, since it is loaded into a field that nothing reads. */
  function Presented(present: ContextMessage -> Content, ms: seq<ContextMessage>): (r: seq<ContextMessage>)
    ensures SameShape(ms, r)
  {
    seq(|ms|, i requires 0 <= i < |ms| => ms[i].(content := present(ms[i]), toolName := None))
  }

  /** A loaded message is ranked for compaction as if it came from no tool: its score differs from what it was
      meant to be exactly when it comes from one of the four tools the ranking knows. */
  lemma LoadedRankDiffers(env: Env, present: ContextMessage -> Content, ms: seq<ContextMessage>, i: nat, total: nat)
    requires i < |ms|
    ensures ScoreMessage(env, Presented(present, ms)[i], i, total) != ScoreMessage(env, ms[i].(content := present(ms[i])), i, total)
       <==> ms[i].toolName in {Some("read_file"), Some("run_lint"), Some("run_tests"), Some("edit_file")}
  {
  }

  /** The history a turn loads does not start inside a tool batch. */
  ghost predicate StartsCleanly(s: seq<Row>) {
    |s| <= HISTORY_LIMIT || s[|s| - HISTORY_LIMIT].msg.role != Tool
  }

  /** Of a well-paired transcript, the last 300 messages are well paired if and only if they do not start
      inside a tool batch. */
  lemma RecentIsPaired(s: seq<Row>)
    requires WellPaired(Messages(s))
    ensures WellPaired(Messages(LastRows(s, HISTORY_LIMIT))) <==> StartsCleanly(s)
  {
    if |s| > HISTORY_LIMIT {
      var k := |s| - HISTORY_LIMIT;
      assert Messages(s)[k..] == Messages(s[k..]);
      PairedCut(Messages(s), k);
    }
  }

  /** A turn that added its prompt and some rows leaves a transcript if and only if the rows are well paired. */
  lemma TranscriptGrows(s: seq<Row>, prompt: Row, table: seq<Row>, project: string, rows: seq<ContextMessage>)
    requires PairedByTurn(s) && Bystander(prompt.msg) && LinkedTo(table, project, prompt.turn, s + [prompt], rows)
    ensures Transcript(table, project) <==> WellPaired(rows)
  {
    var after := Read(table, project);
    var more := after[|s| + 1..];
    assert after == s + [prompt] + more;
    MessagesAppend(s, [prompt]);
    MessagesAppend(s + [prompt], more);
    BystandersArePaired(Messages([prompt]));
    PairedAppend(Messages(s), Messages([prompt]));
    PairedAppend(Messages(s + [prompt]), Messages(more));
    TurnsStartCleanly(s, prompt, more);
  }

  lemma MessagesAppend(a: seq<Row>, b: seq<Row>)
    ensures Messages(a + b) == Messages(a) + Messages(b)
  {
  }

  lemma TurnsStartCleanly(s: seq<Row>, prompt: Row, more: seq<Row>)
    requires PairedByTurn(s) && Bystander(prompt.msg) && AllOfTurn(more, prompt.turn)
    ensures forall i | 0 < i < |s + [prompt] + more| && (s + [prompt] + more)[i].turn != (s + [prompt] + more)[i - 1].turn ::
              (s + [prompt] + more)[i].msg.role != Tool
  {
    var after := s + [prompt] + more;
    forall i | 0 < i < |after| && after[i].turn != after[i - 1].turn
      ensures after[i].msg.role != Tool
    {
    }
  }

  // ---------------------------------------------------------------------------------------------
  // One turn

  /** Everything a turn depends on besides the table. */
  datatype TurnInput = TurnInput(
    prompt: string, present: ContextMessage -> Content, systemPrompt: string, env: Env,
    opening: Opening, script: seq<Step>, maxSteps: nat, now: nat, ending: Ending)

  function Asked(input: TurnInput): ContextMessage { Plain(User, Text(input.prompt)) }

  /** What the model is shown at first: the recent history, and the prompt. */
  function History(s: seq<Row>, input: TurnInput): seq<ContextMessage> {
    Presented(input.present, Messages(LastRows(s, HISTORY_LIMIT)) + [Asked(input)])
  }

  /** The turn that these inputs make of a project with the rows `s`. */
  ghost function TurnOn(s: seq<Row>, input: TurnInput): End
    requires input.maxSteps <= |input.script|
  {
    TurnFrom(History(s, input), input)
  }

  ghost function TurnFrom(history: seq<ContextMessage>, input: TurnInput): End
    requires input.maxSteps <= |input.script|
  {
    Played(Start(false, input.systemPrompt, history, |history|), input.opening, input.script, input.env, input.maxSteps, input.ending)
  }

  function PromptRow(table: seq<Row>, project: string, input: TurnInput): Row {
    Row(project, LatestTurn(table, project) + 1, 0, input.now, StoredForm(Asked(input)))
  }

  /** Between the two tables lies the turn: its prompt and its rows, and nothing else, were added, and no
      other project has changed. */
  ghost predicate PlayedOn(before: seq<Row>, project: string, input: TurnInput, after: seq<Row>)
    requires input.maxSteps <= |input.script|
  {
    LinkedTo(after, project, LatestTurn(before, project) + 1, Read(before, project) + [PromptRow(before, project, input)],
             TurnOn(Read(before, project), input).turn.rows) &&
    SameElsewhere(before, after, project)
  }

  /** The turn's rows are what they should be, whatever history was loaded. */
  lemma TurnIsGood(s: seq<Row>, input: TurnInput)
    requires input.maxSteps <= |input.script|
    ensures GoodEnd(TurnOn(s, input), input.ending.handlerOk)
  {
    var history := History(s, input);
    var t := Start(false, input.systemPrompt, history, |history|);
    assert history[|history|..] == [];
    StartIsSafe(false, input.systemPrompt, history, |history|);
    PlayedEnd(t, input.opening, input.script, input.env, input.maxSteps, input.ending);
  }

  /** The model is shown a well-paired history exactly when the loaded window does not start inside a batch. */
  lemma ShownIsPaired(s: seq<Row>, input: TurnInput)
    requires WellPaired(Messages(s))
    ensures WellPaired(History(s, input)) <==> StartsCleanly(s)
  {
    var recent := Messages(LastRows(s, HISTORY_LIMIT));
    RecentIsPaired(s);
    BystandersArePaired([Asked(input)]);
    OwedByShape(recent + [Asked(input)], History(s, input), []);
    OwedAppend(recent, [Asked(input)], []);
  }

  /** One turn, from table to table, whatever the model, the tools, the user and the database do: what is
      read afterwards is what was read before, the prompt, and exactly the rows of the turn. */
  method PlayTurn(db: Database, project: string, input: TurnInput) returns (reason: Reason, cut: Option<Cut>)
    requires UniqueKeys(db.rows) && input.maxSteps <= |input.script|
    modifies db
    ensures PlayedOn(old(db.rows), project, input, db.rows)
    ensures Messages(Read(db.rows, project))
         == Messages(old(Read(db.rows, project))) + [Asked(input)] + TurnOn(old(Read(db.rows, project)), input).turn.rows
    ensures GoodEnd(TurnOn(old(Read(db.rows, project)), input), input.ending.handlerOk)
    ensures reason == TurnOn(old(Read(db.rows, project)), input).reason && cut == TurnOn(old(Read(db.rows, project)), input).cut
  {
    ghost var s := Read(db.rows, project);
    ghost var row := PromptRow(db.rows, project, input);
    ghost var e, history;
    reason, cut, e, history := LoadAndRun(db, project, input);
    TurnIsGood(s, input);
    ReadAfter(s, row, db.rows, project, e.turn.rows);
  }

  method LoadAndRun(db: Database, project: string, input: TurnInput)
    returns (reason: Reason, cut: Option<Cut>, ghost e: End, ghost history: seq<ContextMessage>)
    requires UniqueKeys(db.rows) && input.maxSteps <= |input.script|
    modifies db
    ensures history == History(old(Read(db.rows, project)), input) && e == TurnFrom(history, input)
    ensures LinkedTo(db.rows, project, old(LatestTurn(db.rows, project)) + 1,
                     old(Read(db.rows, project)) + [old(PromptRow(db.rows, project, input))], e.turn.rows)
    ensures SameElsewhere(old(db.rows), db.rows, project)
    ensures reason == e.reason && cut == e.cut
  {
    var shown := LoadHistory(db.rows, project, input);
    history := shown;
    var turn := StorePrompt(db, project, input);
    reason, cut, e := RunLoop(db, project, turn, shown, input);
  }

  method LoadHistory(table: seq<Row>, project: string, input: TurnInput) returns (history: seq<ContextMessage>)
    requires UniqueKeys(table)
    ensures history == History(Read(table, project), input)
  {
    var recent := GetRecent(table, project, HISTORY_LIMIT);
    history := Presented(input.present, Messages(recent) + [Asked(input)]);
  }

  /** The loop on a history that is all in the table. */
  method RunLoop(db: Database, project: string, turn: nat, history: seq<ContextMessage>, input: TurnInput)
    returns (reason: Reason, cut: Option<Cut>, ghost e: End)
    requires UniqueKeys(db.rows) && LatestTurn(db.rows, project) <= turn && input.maxSteps <= |input.script|
    modifies db
    ensures e == TurnFrom(history, input)
    ensures LinkedTo(db.rows, project, turn, old(Read(db.rows, project)), e.turn.rows)
    ensures SameElsewhere(old(db.rows), db.rows, project)
    ensures reason == e.reason && cut == e.cut
  {
    var agent := new Loop(db, project, turn, false, input.env, input.systemPrompt, history, |history|);
    assert history[|history|..] == [];
    StartIsSafe(false, input.systemPrompt, history, |history|);
    reason, cut, e := agent.RunTurn(input.opening, input.script, input.maxSteps, input.now, input.ending);
  }

  lemma ReadAfter(s: seq<Row>, prompt: Row, table: seq<Row>, project: string, rows: seq<ContextMessage>)
    requires LinkedTo(table, project, prompt.turn, s + [prompt], rows)
    ensures Messages(Read(table, project)) == Messages(s) + [prompt.msg] + rows
  {
    var after := Read(table, project);
    assert after == s + [prompt] + after[|s| + 1..];
    MessagesAppend(s + [prompt], after[|s| + 1..]);
    MessagesAppend(s, [prompt]);
    assert Messages([prompt]) == [prompt.msg];
  }

  /** The prompt is stored before the turn runs, as the first row of a new turn. */
  method StorePrompt(db: Database, project: string, input: TurnInput) returns (turn: nat)
    requires UniqueKeys(db.rows)
    modifies db
    ensures UniqueKeys(db.rows) && LatestTurn(db.rows, project) <= turn && turn == old(LatestTurn(db.rows, project)) + 1
    ensures Read(db.rows, project) == old(Read(db.rows, project)) + [old(PromptRow(db.rows, project, input))]
    ensures SameElsewhere(old(db.rows), db.rows, project)
  {
    ghost var rows := db.rows;
    var prompt := Asked(input);
    turn := db.InsertPrompt(project, prompt, input.now);
    PromptIsRead(rows, db.rows, project, turn, prompt, input.now);
  }

  lemma PromptIsRead(rows: seq<Row>, after: seq<Row>, project: string, turn: nat, prompt: ContextMessage, now: nat)
    requires UniqueKeys(rows) && turn == LatestTurn(rows, project) + 1 && prompt.role != System
    requires after == rows + BatchRows(rows, project, turn, [prompt], now)
    ensures UniqueKeys(after) && LatestTurn(after, project) <= turn
    ensures Read(after, project) == Read(rows, project) + [Row(project, turn, 0, now, StoredForm(prompt))]
    ensures SameElsewhere(rows, after, project)
  {
    PromptRows(rows, project, turn, prompt, now);
    BatchIsAppended(rows, project, turn, [prompt], now);
    BatchTurn(rows, project, turn, [prompt], now);
  }

  lemma PromptRows(rows: seq<Row>, project: string, turn: nat, prompt: ContextMessage, now: nat)
    requires turn == LatestTurn(rows, project) + 1 && prompt.role != System
    ensures BatchRows(rows, project, turn, [prompt], now) == [Row(project, turn, 0, now, StoredForm(prompt))]
  {
    assert MaxSeq(rows, project, turn) == -1;
    assert WithoutSystem([prompt]) == [prompt];
  }

  /** Rewinding to any turn leaves a transcript, of exactly the kept turns. */
  method RewindTurns(db: Database, project: string, keepThrough: int)
    requires Transcript(db.rows, project)
    modifies db
    ensures Follows(old(db.rows), project, RewindTo(keepThrough), db.rows)
    ensures Transcript(db.rows, project) && Read(db.rows, project) <= old(Read(db.rows, project))
    ensures forall x :: x in Read(db.rows, project) <==> x in old(Read(db.rows, project)) && x.turn <= keepThrough
    ensures SameElsewhere(old(db.rows), db.rows, project)
  {
    RewindLeavesTranscript(db.rows, project, keepThrough);
    var _ := db.DeleteAfterTurn(project, keepThrough);
  }

  lemma RewindLeavesTranscript(rows: seq<Row>, project: string, keepThrough: int)
    requires Transcript(rows, project)
    ensures Transcript(WithoutLater(rows, project, keepThrough), project)
    ensures Read(WithoutLater(rows, project, keepThrough), project) <= Read(rows, project)
    ensures forall x :: x in Read(WithoutLater(rows, project, keepThrough), project) <==> x in Read(rows, project) && x.turn <= keepThrough
    ensures SameElsewhere(rows, WithoutLater(rows, project, keepThrough), project)
  {
    RewindIsPrefix(rows, project, keepThrough);
    ReadOrdered(rows, project);
    KeptRows(Read(rows, project), keepThrough);
    RewindKeepsPairs(Read(rows, project), keepThrough);
  }

  lemma RewindKeepsPairs(s: seq<Row>, keepThrough: int)
    requires PairedByTurn(s)
    ensures PairedByTurn(s[..KeptCount(s, keepThrough)])
  {
    var n := KeptCount(s, keepThrough);
    assert Messages(s[..n]) == Messages(s)[..n];
    if n == 0 {
      assert Messages(s)[..n] == [];
    } else {
      assert n < |s| ==> s[n - 1].turn != s[n].turn;
      PairedCut(Messages(s), n);
    }
  }

  // ---------------------------------------------------------------------------------------------
  // Whole chats

  datatype ChatOp = Play(input: TurnInput) | RewindTo(keepThrough: int)

  predicate LegalOp(op: ChatOp) { op.Play? ==> op.input.maxSteps <= |op.input.script| }

  ghost predicate Follows(before: seq<Row>, project: string, op: ChatOp, after: seq<Row>)
    requires LegalOp(op)
  {
    match op
    case Play(input) => PlayedOn(before, project, input, after)
    case RewindTo(keepThrough) => after == WithoutLater(before, project, keepThrough)
  }

  /** The turn does not end in a saved batch that reuses a call id. */
  ghost predicate Clean(before: seq<Row>, project: string, op: ChatOp)
    requires LegalOp(op)
  {
    op.Play? ==>
      var e := TurnOn(Read(before, project), op.input);
      e.cut.Some? && SavesAll(e, op.input.ending.handlerOk) ==> IdsAreFresh(e.cut.value)
  }

  /** A step of a chat leaves a transcript if and only if it is clean. */
  lemma StepKeepsTranscript(before: seq<Row>, project: string, op: ChatOp, after: seq<Row>)
    requires LegalOp(op) && Transcript(before, project) && Follows(before, project, op, after)
    ensures Transcript(after, project) <==> Clean(before, project, op)
  {
    match op
    case Play(input) =>
      var e := TurnOn(Read(before, project), input);
      TurnIsGood(Read(before, project), input);
      TranscriptGrows(Read(before, project), PromptRow(before, project, input), after, project, e.turn.rows);
    case RewindTo(keepThrough) => RewindLeavesTranscript(before, project, keepThrough);
  }

  ghost predicate Chat(tables: seq<seq<Row>>, project: string, ops: seq<ChatOp>) {
    |tables| == |ops| + 1 &&
    forall k | 0 <= k < |ops| :: LegalOp(ops[k]) && Follows(tables[k], project, ops[k], tables[k + 1])
  }

  /** Over every run of turns and rewinds, of any length: the table holds a transcript all along if and only
      if every turn is clean. */
  lemma ChatIsTranscript(tables: seq<seq<Row>>, project: string, ops: seq<ChatOp>)
    requires Chat(tables, project, ops) && Transcript(tables[0], project)
    ensures (forall k: nat | k <= |ops| :: Transcript(tables[k], project))
       <==> (forall k: nat | k < |ops| :: Clean(tables[k], project, ops[k]))
  {
    TranscriptUpTo(tables, project, ops, |ops|);
  }

  lemma {:induction false} TranscriptUpTo(tables: seq<seq<Row>>, project: string, ops: seq<ChatOp>, n: nat)
    requires Chat(tables, project, ops) && Transcript(tables[0], project) && n <= |ops|
    ensures (forall k: nat | k <= n :: Transcript(tables[k], project)) <==> (forall k: nat | k < n :: Clean(tables[k], project, ops[k]))
  {
    if n > 0 {
      var j := n - 1;
      TranscriptUpTo(tables, project, ops, j);
      if Transcript(tables[j], project) {
        StepKeepsTranscript(tables[j], project, ops[j], tables[j + 1]);
      }
    }
  }

  /** Over every run of turns and rewinds of one project, no other project notices. */
  lemma {:induction false} ChatLeavesOthers(tables: seq<seq<Row>>, project: string, ops: seq<ChatOp>, q: string)
    requires Chat(tables, project, ops) && UniqueKeys(tables[0]) && q != project
    ensures Read(tables[|ops|], q) == Read(tables[0], q) && UniqueKeys(tables[|ops|])
    decreases |ops|
  {
    if ops != [] {
      var n := |ops| - 1;
      ChatLeavesOthers(tables[..n + 1], project, ops[..n], q);
      assert Follows(tables[n], project, ops[n], tables[n + 1]);
      if ops[n].RewindTo? {
        RewindIsPrefix(tables[n], project, ops[n].keepThrough);
      }
    }
  }

  /** No two calls of one reply share an id. */
  ghost predicate DistinctIds(calls: seq<ToolCall>) { forall i, j | 0 <= i < j < |calls| :: calls[i].id != calls[j].id }

  ghost predicate DistinctOp(op: ChatOp) {
    op.Play? ==> forall i | 0 <= i < |op.input.script| && op.input.script[i].reply.ToolUse? :: DistinctIds(op.input.script[i].reply.calls)
  }

  /** In particular it does if the model never repeats an id within a reply. */
  lemma DistinctIsClean(before: seq<Row>, project: string, op: ChatOp)
    requires LegalOp(op) && DistinctOp(op)
    ensures Clean(before, project, op)
  {
    if op.Play? {
      var history := History(Read(before, project), op.input);
      var t := Start(false, op.input.systemPrompt, history, |history|);
      PlayedCut(t, op.input.opening, op.input.script, op.input.env, op.input.maxSteps, op.input.ending);
    }
  }
}
