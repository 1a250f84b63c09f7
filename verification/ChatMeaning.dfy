/** What a chat turn loads and leaves, message by message. */
module ChatMeaning {
  import opened Options
  import opened Conversation
  import opened MessageTable
  import opened RowMeaning
  import opened AgentTurn
  import opened TurnSafety
  import opened TurnFailures
  import opened TurnMeaning
  import opened AgentLoop
  import opened ChatTurn

  /** A message as it is loaded: its content is presented, and the name of its tool is lost. */
  ghost predicate Loaded(shown: ContextMessage, stored: ContextMessage, present: ContextMessage -> Content) {
    && shown.role == stored.role && shown.toolCalls == stored.toolCalls && shown.toolCallId == stored.toolCallId
    && shown.toolName == None && shown.content == present(stored)
  }

  /** A turn loads the last three hundred messages, or all if there are fewer, and then the prompt. */
  lemma HistorySays(s: seq<Row>, input: TurnInput, n: nat)
    requires n == if |s| < 300 then |s| else 300
    ensures |History(s, input)| == n + 1
    ensures forall k | 0 <= k < n :: Loaded(History(s, input)[k], s[|s| - n + k].msg, input.present)
    ensures exists asked :: Is(asked, User, Text(input.prompt)) && Loaded(History(s, input)[n], asked, input.present)
  {
    var rows := LastRows(s, HISTORY_LIMIT);
    assert |rows| == n && forall k | 0 <= k < n :: rows[k] == s[|s| - n + k];
    assert Is(Asked(input), User, Text(input.prompt)) && Loaded(History(s, input)[n], Asked(input), input.present);
  }

  /** The prompt is the first row of a turn of its own, behind all others. */
  lemma PromptSays(table: seq<Row>, project: string, input: TurnInput, row: Row)
    requires row == PromptRow(table, project, input)
    ensures row.project == project && row.seqNo == 0 && row.createdAt == input.now && Is(row.msg, User, Text(input.prompt))
    ensures forall x | x in table && x.project == project :: x.turn < row.turn
    ensures row.turn == 1 || exists x :: x in table && x.project == project && x.turn == row.turn - 1
  {
  }

  /** What a row holds that records message `n` of a turn. */
  lemma RecordKeeps(t: Turn, ns: seq<nat>, k: nat)
    requires Holds(t, ns) && k < |ns|
    ensures k < |t.rows| && Keeps(t.rows[k], t.forms[ns[k]])
  {
    FormKeeps(t.forms[ns[k]]);
  }

  lemma SaidBehind(table: seq<Row>, project: string, turn: nat, before: seq<Row>, t: Turn, ns: seq<nat>, k: nat, n: nat)
    requires LinkedTo(table, project, turn, before, t.rows) && Holds(t, ns) && k < |ns| && n == |before| + k
    requires AsSaid(t, ns[k]) && |t.forms| == |t.spoken|
    ensures n < |Read(table, project)| && Keeps(Read(table, project)[n].msg, t.spoken[ns[k]])
  {
    RecordKeeps(t, ns, k);
    RowBehind(table, project, turn, before, t.rows, k);
  }

  /** To the end: whatever a turn said, and recorded as said, is read back after it with all it said. */
  lemma SaidReadsBack(before: seq<Row>, project: string, input: TurnInput, after: seq<Row>, t: Turn, ns: seq<nat>, k: nat, n: nat)
    requires input.maxSteps <= |input.script| && PlayedOn(before, project, input, after)
    requires t == TurnOn(Read(before, project), input).turn && Holds(t, ns) && k < |ns| && n == |Read(before, project)| + 1 + k
    requires AsSaid(t, ns[k]) && |t.forms| == |t.spoken|
    ensures n < |Read(after, project)| && Keeps(Read(after, project)[n].msg, t.spoken[ns[k]])
  {
    var s := Read(before, project) + [PromptRow(before, project, input)];
    SaidBehind(after, project, LatestTurn(before, project) + 1, s, t, ns, k, n);
  }

  lemma RowBehind(table: seq<Row>, project: string, turn: nat, before: seq<Row>, rows: seq<ContextMessage>, k: nat)
    requires LinkedTo(table, project, turn, before, rows) && k < |rows|
    ensures |before| + k < |Read(table, project)| && Read(table, project)[|before| + k].msg == rows[k]
  {
    assert Messages(Read(table, project)[|before|..])[k] == rows[k];
  }
}
