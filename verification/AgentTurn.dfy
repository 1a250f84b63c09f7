/** One turn of the agent loop, seen as a state machine over its message list.

    Message objects are cells: `ref` is the identity the WeakSet of persisted messages goes by, so a
    clone has a new ref, and `origin` says which message of the conversation the object carries. */
module AgentTurn {
  import opened Sequences
  import opened Options
  import opened Conversation
  import opened Compaction
  import opened MessageTable

  /** Loaded from the table, ephemeral (never conversation), or the n-th message this turn produced. */
  datatype Origin = Loaded | Ephemeral | Said(n: nat)

  datatype Cell = Cell(ref: nat, origin: Origin, msg: ContextMessage)

  /** `cells`, `persisted` and `nextRef` are the loop's own state and `rows` what it has written; the
      other fields record history: all messages produced, the form each has got while it was unsaved
      (compaction may have rewritten it), the numbers of those evicted unsaved, and the cells saved. */
  datatype Turn = Turn(
    nested: bool,
    cells: seq<Cell>,
    persisted: set<nat>,
    nextRef: nat,
    rows: seq<ContextMessage>,
    spoken: seq<ContextMessage>,
    forms: seq<ContextMessage>,
    lost: set<nat>,
    saved: seq<Cell>)

  function Msgs(cells: seq<Cell>): (r: seq<ContextMessage>)
    ensures |r| == |cells|
  {
    seq(|cells|, i requires 0 <= i < |cells| => cells[i].msg)
  }

  /** messages.filter(m => !alreadyPersisted.has(m)) */
  function Fresh(cells: seq<Cell>, persisted: set<nat>): seq<Cell> {
    if cells == [] then []
    else if cells[0].ref in persisted then Fresh(cells[1..], persisted)
    else [cells[0]] + Fresh(cells[1..], persisted)
  }

  function Refs(cells: seq<Cell>): set<nat> {
    set c | c in cells :: c.ref
  }

  function NonSystem(cells: seq<Cell>): seq<Cell> {
    if cells == [] then []
    else if cells[0].msg.role == System then NonSystem(cells[1..])
    else [cells[0]] + NonSystem(cells[1..])
  }

  /** The numbers of the turn's own messages among `cells`. */
  function Numbers(cells: seq<Cell>): seq<nat> {
    if cells == [] then []
    else if !cells[0].origin.Said? then Numbers(cells[1..])
    else [cells[0].origin.n] + Numbers(cells[1..])
  }

  /** The numbers below `n` that are not in `lost`, in order. */
  function Survivors(n: nat, lost: set<nat>): seq<nat> {
    if n == 0 then []
    else if n - 1 in lost then Survivors(n - 1, lost)
    else Survivors(n - 1, lost) + [n - 1]
  }

  // ---------------------------------------------------------------------------------------------
  // Transitions

  function NewCells(ms: seq<ContextMessage>, ref: nat, n: nat): (r: seq<Cell>)
    ensures |r| == |ms|
  {
    seq(|ms|, i requires 0 <= i < |ms| => Cell(ref + i, Said(n + i), ms[i]))
  }

  /** messages.push(...ms) */
  function Say(t: Turn, ms: seq<ContextMessage>): Turn {
    t.(cells := t.cells + NewCells(ms, t.nextRef, |t.spoken|),
       nextRef := t.nextRef + |ms|,
       spoken := t.spoken + ms,
       forms := t.forms + ms)
  }

  /** Plan, editor and session context, budget warning: pushed, and marked persisted at once. */
  function Remind(t: Turn, text: string): Turn {
    t.(cells := t.cells + [Cell(t.nextRef, Ephemeral, Plain(User, Text(text)))],
       persisted := t.persisted + {t.nextRef},
       nextRef := t.nextRef + 1)
  }

  /** The part of a save that both the step-wise and the final save share. */
  function WriteRows(t: Turn, ms: seq<ContextMessage>): Turn {
    t.(rows := t.rows + StoredForms(WithoutSystem(ms)),
       saved := t.saved + NonSystem(Fresh(t.cells, t.persisted)))
  }

  /** persistPartial, when the database accepts the batch. */
  function Persist(t: Turn): Turn {
    if t.nested then t
    else
      var unsaved := Fresh(t.cells, t.persisted);
      WriteRows(t, Closed(Msgs(unsaved), [], {})).(persisted := t.persisted + Refs(unsaved))
  }

  /** The save at the end of a turn: nothing is closed, nothing is marked. */
  function FinalSave(t: Turn): Turn {
    if t.nested then t else WriteRows(t, Msgs(Fresh(t.cells, t.persisted)))
  }

  function SummaryCell(ref: nat, summary: string): Cell {
    Cell(ref, Ephemeral, Plain(User, Text(summary)))
  }

  /** cells[h..c] give way to an ephemeral summary. */
  function Evict(t: Turn, h: nat, c: nat, summary: string): Turn
    requires h <= c <= |t.cells|
  {
    t.(cells := t.cells[..h] + [SummaryCell(t.nextRef, summary)] + t.cells[c..],
       persisted := t.persisted + {t.nextRef},
       nextRef := t.nextRef + 1,
       lost := t.lost + NumberSet(Fresh(t.cells[h..c], t.persisted)))
  }

  /** Summary compaction, where splitForCompaction finds enough to evict. */
  function Summarize(t: Turn, preserveLastN: nat, summary: string): Turn {
    var h, c := HeadLength(Msgs(t.cells)), CutPoint(Msgs(t.cells), preserveLastN);
    if c < h + MIN_EVICTED then t else Evict(t, h, c, summary)
  }

  function NumberSet(cells: seq<Cell>): set<nat> {
    set n | n in Numbers(cells)
  }

  /** Cells whose message placeholder compaction replaced become new objects. */
  function Clones(cells: seq<Cell>, ms: seq<ContextMessage>, ref: nat): (r: seq<Cell>)
    requires |ms| == |cells|
    ensures |r| == |cells|
  {
    seq(|cells|, i requires 0 <= i < |cells| =>
      if ms[i] == cells[i].msg then cells[i] else Cell(ref + i, cells[i].origin, ms[i]))
  }

  /** Cell `i` is the turn's message `n`, not saved yet. */
  ghost predicate Awaits(cells: seq<Cell>, persisted: set<nat>, i: nat, n: nat) {
    i < |cells| && cells[i].ref !in persisted && cells[i].origin == Said(n)
  }

  /** The forms after the messages of `cells` were replaced by `ms`: only unsaved ones count. */
  ghost function Reformed(forms: seq<ContextMessage>, cells: seq<Cell>, persisted: set<nat>, ms: seq<ContextMessage>): (r: seq<ContextMessage>)
    requires |ms| == |cells|
    ensures |r| == |forms|
  {
    seq(|forms|, n requires 0 <= n < |forms| =>
      if i: nat :| Awaits(cells, persisted, i, n) then ms[i] else forms[n])
  }

  /** Placeholder compaction; membership in `persisted` is carried over position by position. */
  ghost function Shrink(t: Turn, ms: seq<ContextMessage>): Turn
    requires |ms| == |t.cells|
  {
    var cells := Clones(t.cells, ms, t.nextRef);
    t.(cells := cells,
       persisted := t.persisted + (set i | 0 <= i < |cells| && t.cells[i].ref in t.persisted :: cells[i].ref),
       nextRef := t.nextRef + |cells|,
       forms := Reformed(t.forms, t.cells, t.persisted, ms))
  }

  // ---------------------------------------------------------------------------------------------
  // Tool batches

  function CallMessage(content: Content, calls: seq<ToolCall>): ContextMessage {
    ContextMessage(Assistant, content, calls, None, None)
  }

  function ImageMessages(images: seq<seq<Part>>): (r: seq<ContextMessage>)
    ensures |r| == |images|
  {
    seq(|images|, i requires 0 <= i < |images| => Plain(User, Parts(images[i])))
  }

  /** What a batch adds up to now: the calls, one tool message per result so far. */
  function PartialBatch(content: Content, calls: seq<ToolCall>, results: seq<string>): seq<ContextMessage>
    requires |results| <= |calls|
  {
    [CallMessage(content, calls)] + ToolMessages(calls, results)
  }

  /** What a complete batch adds: the calls, every result in call order, then the attached images. */
  function FullBatch(content: Content, calls: seq<ToolCall>, results: seq<string>, images: seq<seq<Part>>): seq<ContextMessage>
    requires |results| == |calls|
  {
    PartialBatch(content, calls, results) + ImageMessages(images)
  }

  // ---------------------------------------------------------------------------------------------
  // Whole runs

  datatype Event =
    | Speech(ms: seq<ContextMessage>)      // plan, drained user messages, cut-off reply, nudge, final reply
    | Reminder(text: string)
    | SummaryCompaction(preserveLastN: nat, summary: string)
    | PlaceholderCompaction(env: Env, target: real, keepLast: nat)
    | Batch(content: Content, calls: seq<ToolCall>, results: seq<string>, images: seq<seq<Part>>, dbOk: bool)

  predicate LegalEvent(e: Event) {
    match e
    case Speech(ms) => forall m | m in ms :: Bystander(m) && m.role != System
    case Batch(_, calls, results, _, _) => |results| == |calls|
    case _ => true
  }

  function PersistIf(t: Turn, dbOk: bool): Turn {
    if dbOk then Persist(t) else t
  }

  ghost function Next(t: Turn, e: Event): Turn
    requires LegalEvent(e)
  {
    match e
    case Speech(ms) => Say(t, ms)
    case Reminder(text) => Remind(t, text)
    case SummaryCompaction(n, summary) => Summarize(t, n, summary)
    case PlaceholderCompaction(env, target, n) => Shrink(t, CompactedMessages(env, Msgs(t.cells), target, n))
    case Batch(content, calls, results, images, dbOk) => PersistIf(Say(t, FullBatch(content, calls, results, images)), dbOk)
  }

  ghost function After(t: Turn, es: seq<Event>): Turn
    requires forall e | e in es :: LegalEvent(e)
    decreases |es|
  {
    if es == [] then t else After(Next(t, es[0]), es[1..])
  }

  /** The messages beyond the persisted ones, as the turn's own. */
  function OwnCells(ms: seq<ContextMessage>, ref: nat, n: nat): seq<Cell> {
    if ms == [] then []
    else if ms[0].role == System then [Cell(ref, Loaded, ms[0])] + OwnCells(ms[1..], ref + 1, n)
    else [Cell(ref, Said(n), ms[0])] + OwnCells(ms[1..], ref + 1, n + 1)
  }

  function LoadedCells(ms: seq<ContextMessage>): (r: seq<Cell>)
    ensures |r| == |ms|
  {
    seq(|ms|, i requires 0 <= i < |ms| => Cell(i, Loaded, ms[i]))
  }

  /** The state a turn starts in: the system prompt and the history, the first `persistedCount` messages
      of which are in the table already. */
  function Start(nested: bool, systemPrompt: string, history: seq<ContextMessage>, persistedCount: nat): Turn
    requires persistedCount <= |history|
  {
    var k := 1 + persistedCount;
    var known, own := [Plain(System, Text(systemPrompt))] + history[..persistedCount], history[persistedCount..];
    Turn(nested, LoadedCells(known) + OwnCells(own, k, 0), Refs(LoadedCells(known)), 1 + |history|,
         [], WithoutSystem(own), WithoutSystem(own), {}, [])
  }

  // ---------------------------------------------------------------------------------------------
  // What every step keeps

  ghost predicate DistinctRefs(t: Turn) {
    (forall i | 0 <= i < |t.cells| :: t.cells[i].ref < t.nextRef) &&
    (forall r | r in t.persisted :: r < t.nextRef)
  }

  /** A tool message is persisted exactly when the message before it is. */
  ghost predicate Uniform(cells: seq<Cell>, persisted: set<nat>) {
    forall i | 1 <= i < |cells| && cells[i].msg.role == Tool ::
      cells[i].ref in persisted <==> cells[i - 1].ref in persisted
  }

  /** `form` is message `said` with, at most, another content. */
  predicate IsFormOf(form: ContextMessage, said: ContextMessage) {
    form.(content := said.content) == said
  }

  /** A cell of the turn's own carries one of its messages, in its present form as long as it is unsaved;
      any other cell is already persisted or is a system message. */
  ghost predicate GoodCell(t: Turn, c: Cell) {
    match c.origin
    case Said(n) =>
      n < |t.forms| && c.msg.role != System && (c.ref in t.persisted || c.msg == t.forms[n])
    case _ => c.ref in t.persisted || c.msg.role == System
  }

  /** A saved cell carries a message of the turn's own in the form it had. */
  ghost predicate GoodSave(t: Turn, c: Cell) {
    c.origin.Said? && c.origin.n < |t.forms| && c.msg == t.forms[c.origin.n]
  }

  ghost predicate Formed(t: Turn) {
    |t.forms| == |t.spoken| && forall n | 0 <= n < |t.spoken| :: IsFormOf(t.forms[n], t.spoken[n])
  }

  /** Nothing is stored twice, out of order, or missing: saved and still unsaved messages together are
      all the turn produced except those lost. */
  ghost predicate Accounted(t: Turn) {
    (forall n | n in t.lost :: n < |t.spoken|) &&
    Numbers(t.saved) + Numbers(Fresh(t.cells, t.persisted)) == Survivors(|t.spoken|, t.lost)
  }

  ghost predicate Stored(t: Turn) {
    && t.rows == StoredForms(Msgs(t.saved))
    && WellPaired(Msgs(t.saved))
    && (forall i | 0 <= i < |t.saved| :: GoodSave(t, t.saved[i]))
  }

  /** Everything but pairing, which a batch in progress breaks. */
  ghost predicate Books(t: Turn) {
    && DistinctRefs(t) && Formed(t)
    && Uniform(t.cells, t.persisted)
    && (forall i | 0 <= i < |t.cells| :: GoodCell(t, t.cells[i]))
    && Accounted(t)
    && Stored(t)
  }

  /** The books are straight, and what is still to be saved is well paired. */
  ghost predicate Inv(t: Turn) {
    Books(t) && WellPaired(Msgs(Fresh(t.cells, t.persisted)))
  }

  /** The history the model is shown is well paired. */
  ghost predicate Presentable(t: Turn) { WellPaired(Msgs(t.cells)) }

  /** The messages with these numbers, in the form they were saved in. */
  function Recorded(t: Turn, ns: seq<nat>): (r: seq<ContextMessage>)
    requires forall i | 0 <= i < |ns| :: ns[i] < |t.forms|
    ensures |r| == |ns|
  {
    seq(|ns|, i requires 0 <= i < |ns| => t.forms[ns[i]])
  }

  // ---------------------------------------------------------------------------------------------
  // Lists of cells

  lemma {:induction false} FreshAppend(a: seq<Cell>, b: seq<Cell>, persisted: set<nat>)
    ensures Fresh(a + b, persisted) == Fresh(a, persisted) + Fresh(b, persisted)
  {
    if a == [] {
      assert a + b == b;
    } else {
      FreshAppend(a[1..], b, persisted);
      assert (a + b)[1..] == a[1..] + b;
      Associate([a[0]], Fresh(a[1..], persisted), Fresh(b, persisted));
    }
  }

  lemma {:induction false} NumbersAppend(a: seq<Cell>, b: seq<Cell>)
    ensures Numbers(a + b) == Numbers(a) + Numbers(b)
  {
    if a == [] {
      assert a + b == b;
    } else {
      NumbersAppend(a[1..], b);
      assert (a + b)[1..] == a[1..] + b;
      if a[0].origin.Said? {
        Associate([a[0].origin.n], Numbers(a[1..]), Numbers(b));
      }
    }
  }

  lemma {:induction false} WithoutSystemAppend(a: seq<ContextMessage>, b: seq<ContextMessage>)
    ensures WithoutSystem(a + b) == WithoutSystem(a) + WithoutSystem(b)
  {
    if a == [] {
      assert a + b == b;
    } else {
      WithoutSystemAppend(a[1..], b);
      assert (a + b)[1..] == a[1..] + b;
      Associate([a[0]], WithoutSystem(a[1..]), WithoutSystem(b));
    }
  }

  lemma {:induction false} FreshMember(cells: seq<Cell>, persisted: set<nat>, c: Cell)
    ensures c in Fresh(cells, persisted) <==> c in cells && c.ref !in persisted
  {
    if cells != [] {
      FreshMember(cells[1..], persisted, c);
      assert c in cells <==> c == cells[0] || c in cells[1..];
    }
  }

  lemma {:induction false} FreshAll(cells: seq<Cell>, persisted: set<nat>)
    requires forall i | 0 <= i < |cells| :: cells[i].ref !in persisted
    ensures Fresh(cells, persisted) == cells
  {
    if cells != [] {
      FreshAll(cells[1..], persisted);
    }
  }

  lemma {:induction false} FreshNone(cells: seq<Cell>, persisted: set<nat>)
    requires forall i | 0 <= i < |cells| :: cells[i].ref in persisted
    ensures Fresh(cells, persisted) == []
  {
    if cells != [] {
      FreshNone(cells[1..], persisted);
    }
  }

  /** Marking other objects persisted does not matter. */
  lemma {:induction false} FreshSame(cells: seq<Cell>, p: set<nat>, q: set<nat>)
    requires forall i | 0 <= i < |cells| :: cells[i].ref in p <==> cells[i].ref in q
    ensures Fresh(cells, p) == Fresh(cells, q)
  {
    if cells != [] {
      FreshSame(cells[1..], p, q);
    }
  }

  lemma {:induction false} NonSystemMsgs(cells: seq<Cell>)
    ensures Msgs(NonSystem(cells)) == WithoutSystem(Msgs(cells))
  {
    if cells != [] {
      NonSystemMsgs(cells[1..]);
      assert Msgs(cells)[1..] == Msgs(cells[1..]);
    }
  }

  lemma {:induction false} OwedWithoutSystem(ms: seq<ContextMessage>, due: seq<ToolCall>)
    requires Owed(ms, due).Some?
    ensures Owed(WithoutSystem(ms), due) == Owed(ms, due)
  {
    if ms != [] {
      OwedWithoutSystem(ms[1..], if due != [] then due[1..] else Calls(ms[0]));
      if ms[0].role != System {
        assert WithoutSystem(ms)[1..] == WithoutSystem(ms[1..]);
      }
    }
  }

  lemma {:induction false} OwedFresh(cells: seq<Cell>, persisted: set<nat>, due: seq<ToolCall>, unsaved: bool)
    requires Owed(Msgs(cells), due) == Some([]) && Uniform(cells, persisted)
    requires due != [] && cells != [] ==> (cells[0].ref !in persisted) == unsaved
    ensures Owed(Msgs(Fresh(cells, persisted)), if unsaved then due else []) == Some([])
  {
    if cells != [] {
      var c, rest := cells[0], cells[1..];
      var next := if due != [] then due[1..] else Calls(c.msg);
      UniformRest(cells, rest, persisted, due, next);
      OwedFresh(rest, persisted, next, c.ref !in persisted);
      OwedOneMore(c, rest, persisted, due, next);
    }
  }

  /** Behind the first cell: what is owed then, and that an answer is saved with what it answers. */
  lemma UniformRest(cells: seq<Cell>, rest: seq<Cell>, persisted: set<nat>, due: seq<ToolCall>, next: seq<ToolCall>)
    requires cells != [] && rest == cells[1..] && Owed(Msgs(cells), due) == Some([]) && Uniform(cells, persisted)
    requires next == if due != [] then due[1..] else Calls(cells[0].msg)
    ensures Owed(Msgs(rest), next) == Some([]) && Uniform(rest, persisted)
    ensures next != [] && rest != [] ==> (rest[0].ref in persisted <==> cells[0].ref in persisted)
  {
    assert Msgs(cells)[1..] == Msgs(rest);
    assert forall i | 0 <= i < |rest| :: rest[i] == cells[i + 1];
    if next != [] && rest != [] {
      assert AnswersCall(Msgs(rest)[0], next[0]);
      assert cells[1].msg.role == Tool;
    }
  }

  /** Taking the first cell back: it is among the unsaved ones, or changes nothing there. */
  lemma OwedOneMore(c: Cell, rest: seq<Cell>, persisted: set<nat>, due: seq<ToolCall>, next: seq<ToolCall>)
    requires next == if due != [] then due[1..] else Calls(c.msg)
    requires due != [] ==> AnswersCall(c.msg, due[0])
    requires due == [] ==> c.msg.role != Tool
    requires Owed(Msgs(Fresh(rest, persisted)), if c.ref !in persisted then next else []) == Some([])
    ensures Owed(Msgs(Fresh([c] + rest, persisted)), if c.ref !in persisted then due else []) == Some([])
  {
    assert ([c] + rest)[1..] == rest;
    if c.ref !in persisted {
      assert Msgs(Fresh([c] + rest, persisted))[1..] == Msgs(Fresh(rest, persisted));
    }
  }

  /** What persistPartial filters out of a well-paired history is well paired, if no batch is partly saved. */
  lemma FreshIsPaired(t: Turn)
    requires Presentable(t) && Uniform(t.cells, t.persisted)
    ensures WellPaired(Msgs(Fresh(t.cells, t.persisted)))
  {
    OwedFresh(t.cells, t.persisted, [], true);
  }
}
