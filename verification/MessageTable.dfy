/** The messages table: rows keyed by (turn, seq) inside a project, written a step at a time, rewound by
    turn, and read back in key order. */
module MessageTable {
  import opened Sequences
  import opened Conversation

  /** A row is identified by its contents; the random ids of the original only serve to name rows. */
  datatype Row = Row(project: string, turn: nat, seqNo: nat, createdAt: nat, msg: ContextMessage)

  predicate KeyLess(a: Row, b: Row) {
    a.turn < b.turn || (a.turn == b.turn && a.seqNo < b.seqNo)
  }

  /** ORDER BY turn_index, seq, created_at */
  predicate RowLess(a: Row, b: Row) {
    KeyLess(a, b) || (!KeyLess(b, a) && a.createdAt < b.createdAt)
  }

  function OfProject(rows: seq<Row>, project: string): (r: seq<Row>)
    ensures forall x :: x in r <==> x in rows && x.project == project
  {
    if rows == [] then []
    else
      assert forall x :: x in rows <==> x == rows[0] || x in rows[1..];
      if rows[0].project != project then OfProject(rows[1..], project)
      else [rows[0]] + OfProject(rows[1..], project)
  }

  function InsertRow(sorted: seq<Row>, r: Row): (s: seq<Row>)
    ensures forall x :: x in s <==> x == r || x in sorted
  {
    if sorted == [] || RowLess(r, sorted[0]) then [r] + sorted
    else
      assert forall x :: x in sorted <==> x == sorted[0] || x in sorted[1..];
      [sorted[0]] + InsertRow(sorted[1..], r)
  }

  function SortRows(rows: seq<Row>): (s: seq<Row>)
    ensures forall x :: x in s <==> x in rows
  {
    if rows == [] then []
    else
      assert forall x :: x in rows <==> x == rows[|rows| - 1] || x in rows[..|rows| - 1];
      InsertRow(SortRows(rows[..|rows| - 1]), rows[|rows| - 1])
  }

  /** The project's rows in reading order. */
  function Read(rows: seq<Row>, project: string): (s: seq<Row>)
    ensures forall x :: x in s <==> x in rows && x.project == project
  {
    SortRows(OfProject(rows, project))
  }

  ghost predicate Ordered(s: seq<Row>) {
    forall i, j | 0 <= i < j < |s| :: KeyLess(s[i], s[j])
  }

  ghost predicate DistinctKeys(s: seq<Row>) {
    forall i, j | 0 <= i < j < |s| :: KeyLess(s[i], s[j]) || KeyLess(s[j], s[i])
  }

  /** No two rows of one project share a (turn, seq) key. */
  ghost predicate UniqueKeys(rows: seq<Row>) {
    forall i, j | 0 <= i < j < |rows| && rows[i].project == rows[j].project ::
      KeyLess(rows[i], rows[j]) || KeyLess(rows[j], rows[i])
  }

  lemma {:induction false} UniqueInProject(rows: seq<Row>, project: string)
    requires UniqueKeys(rows)
    ensures DistinctKeys(OfProject(rows, project))
  {
    if rows != [] {
      var rest := OfProject(rows[1..], project);
      UniqueInProject(rows[1..], project);
      forall k | 0 <= k < |rest| && rows[0].project == project
        ensures KeyLess(rows[0], rest[k]) || KeyLess(rest[k], rows[0])
      {
        assert rest[k] in rest;
        var j :| 0 <= j < |rows[1..]| && rows[1..][j] == rest[k];
        assert rows[j + 1] == rest[k];
      }
    }
  }

  // ---------------------------------------------------------------------------------------------
  // Reading order is determined by the keys

  lemma {:induction false} InsertOrdered(sorted: seq<Row>, r: Row)
    requires Ordered(sorted)
    requires forall x | x in sorted :: KeyLess(x, r) || KeyLess(r, x)
    ensures Ordered(InsertRow(sorted, r))
  {
    if sorted != [] && !RowLess(r, sorted[0]) {
      var rest := sorted[1..];
      assert sorted[0] in sorted;
      InsertOrdered(rest, r);
      var tail := InsertRow(rest, r);
      forall k | 0 <= k < |tail|
        ensures KeyLess(sorted[0], tail[k])
      {
        assert tail[k] in tail;
        if tail[k] != r {
          var j :| 0 <= j < |rest| && rest[j] == tail[k];
          assert rest[j] == sorted[j + 1];
        }
      }
    }
  }

  lemma {:induction false} SortOrdered(rows: seq<Row>)
    requires DistinctKeys(rows)
    ensures Ordered(SortRows(rows))
  {
    if rows != [] {
      var n := |rows| - 1;
      SortOrdered(rows[..n]);
      forall x | x in rows[..n]
        ensures KeyLess(x, rows[n]) || KeyLess(rows[n], x)
      {
        var i :| 0 <= i < n && rows[i] == x;
      }
      InsertOrdered(SortRows(rows[..n]), rows[n]);
    }
  }

  lemma {:induction false} OrderedUnique(a: seq<Row>, b: seq<Row>)
    requires Ordered(a) && Ordered(b)
    requires forall x :: x in a <==> x in b
    ensures a == b
  {
    if a == [] {
      assert forall k | 0 <= k < |b| :: b[k] in b;
    } else {
      assert a[0] in b && b != [];
      assert b[0] in a;
      assert a[0] == b[0];
      forall x
        ensures x in a[1..] <==> x in b[1..]
      {
        TailMember(a, x);
        TailMember(b, x);
      }
      OrderedUnique(a[1..], b[1..]);
      assert a == [a[0]] + a[1..] && b == [b[0]] + b[1..];
    }
  }

  lemma TailMember(s: seq<Row>, x: Row)
    requires Ordered(s) && s != []
    ensures x in s[1..] <==> x in s && x != s[0]
  {
    if x in s && x != s[0] {
      var i :| 0 <= i < |s| && s[i] == x;
      assert s[1..][i - 1] == x;
    }
    if x in s[1..] {
      var i :| 0 <= i < |s[1..]| && s[1..][i] == x;
      assert KeyLess(s[0], s[i + 1]);
    }
  }

  /** A sequence in strict key order that holds exactly the project's rows is what reading returns. */
  lemma ReadIs(rows: seq<Row>, project: string, s: seq<Row>)
    requires UniqueKeys(rows) && Ordered(s)
    requires forall x :: x in s <==> x in rows && x.project == project
    ensures Read(rows, project) == s
  {
    ReadOrdered(rows, project);
    OrderedUnique(Read(rows, project), s);
  }

  lemma ReadOrdered(rows: seq<Row>, project: string)
    requires UniqueKeys(rows)
    ensures Ordered(Read(rows, project))
  {
    UniqueInProject(rows, project);
    SortOrdered(OfProject(rows, project));
  }

  // ---------------------------------------------------------------------------------------------
  // getRecent

  function InsertRowDescending(sorted: seq<Row>, r: Row): (s: seq<Row>)
    ensures forall x :: x in s <==> x == r || x in sorted
  {
    if sorted == [] || RowLess(sorted[0], r) then [r] + sorted
    else
      assert forall x :: x in sorted <==> x == sorted[0] || x in sorted[1..];
      [sorted[0]] + InsertRowDescending(sorted[1..], r)
  }

  /** ORDER BY turn_index DESC, seq DESC, created_at DESC */
  function SortDescending(rows: seq<Row>): (s: seq<Row>)
    ensures forall x :: x in s <==> x in rows
  {
    if rows == [] then []
    else
      assert forall x :: x in rows <==> x == rows[|rows| - 1] || x in rows[..|rows| - 1];
      InsertRowDescending(SortDescending(rows[..|rows| - 1]), rows[|rows| - 1])
  }

  function Reverse(s: seq<Row>): (r: seq<Row>)
    ensures |r| == |s| && forall k | 0 <= k < |s| :: r[k] == s[|s| - 1 - k]
  {
    seq(|s|, k requires 0 <= k < |s| => s[|s| - 1 - k])
  }

  ghost predicate Descending(s: seq<Row>) {
    forall i, j | 0 <= i < j < |s| :: KeyLess(s[j], s[i])
  }

  lemma {:induction false} InsertDescending(sorted: seq<Row>, r: Row)
    requires Descending(sorted)
    requires forall x | x in sorted :: KeyLess(x, r) || KeyLess(r, x)
    ensures Descending(InsertRowDescending(sorted, r))
  {
    if sorted != [] && !RowLess(sorted[0], r) {
      var rest := sorted[1..];
      assert sorted[0] in sorted;
      InsertDescending(rest, r);
      var tail := InsertRowDescending(rest, r);
      forall k | 0 <= k < |tail|
        ensures KeyLess(tail[k], sorted[0])
      {
        assert tail[k] in tail;
        if tail[k] != r {
          var j :| 0 <= j < |rest| && rest[j] == tail[k];
          assert rest[j] == sorted[j + 1];
        }
      }
    }
  }

  lemma {:induction false} SortIsDescending(rows: seq<Row>)
    requires DistinctKeys(rows)
    ensures Descending(SortDescending(rows))
  {
    if rows != [] {
      var n := |rows| - 1;
      SortIsDescending(rows[..n]);
      forall x | x in rows[..n]
        ensures KeyLess(x, rows[n]) || KeyLess(rows[n], x)
      {
        var i :| 0 <= i < n && rows[i] == x;
      }
      InsertDescending(SortDescending(rows[..n]), rows[n]);
    }
  }

  lemma ReverseMembers(s: seq<Row>)
    ensures forall k | 0 <= k < |s| :: Reverse(s)[|s| - 1 - k] == s[k]
    ensures forall x :: x in Reverse(s) <==> x in s
  {
    var r := Reverse(s);
    forall x
      ensures x in r <==> x in s
    {
      if x in r {
        var k :| 0 <= k < |r| && r[k] == x;
        assert s[|s| - 1 - k] == x;
      }
      if x in s {
        var k :| 0 <= k < |s| && s[k] == x;
        assert r[|s| - 1 - k] == x;
      }
    }
  }

  lemma DescendingIsReversed(rows: seq<Row>, project: string)
    requires UniqueKeys(rows)
    ensures Reverse(SortDescending(OfProject(rows, project))) == Read(rows, project)
  {
    var desc := SortDescending(OfProject(rows, project));
    UniqueInProject(rows, project);
    SortIsDescending(OfProject(rows, project));
    ReverseMembers(desc);
    ReadIs(rows, project, Reverse(desc));
  }

  function LastRows(s: seq<Row>, limit: nat): seq<Row> {
    if limit >= |s| then s else s[|s| - limit..]
  }

  lemma ReverseOfPrefix(s: seq<Row>, n: nat)
    requires n <= |s|
    ensures Reverse(s[..n]) == LastRows(Reverse(s), n)
  {
    var r, t := Reverse(s[..n]), LastRows(Reverse(s), n);
    assert |r| == |t|;
    forall k | 0 <= k < n
      ensures r[k] == t[k]
    {
    }
  }

  /** SELECT in descending key order, LIMIT, reverse. */
  method GetRecent(rows: seq<Row>, project: string, limit: nat) returns (r: seq<Row>)
    requires UniqueKeys(rows)
    ensures r == LastRows(Read(rows, project), limit)
  {
    var desc := SortDescending(OfProject(rows, project));
    var n := if limit < |desc| then limit else |desc|;
    r := Reverse(desc[..n]);
    ReverseOfPrefix(desc, n);
    DescendingIsReversed(rows, project);
  }

  // ---------------------------------------------------------------------------------------------
  // Writing

  /** The form in which a message is stored: absent content becomes the empty string. */
  function StoredForm(m: ContextMessage): ContextMessage {
    if m.content == NoContent then m.(content := Text("")) else m
  }

  function StoredForms(ms: seq<ContextMessage>): (r: seq<ContextMessage>)
    ensures |r| == |ms|
  {
    seq(|ms|, i requires 0 <= i < |ms| => StoredForm(ms[i]))
  }

  function WithoutSystem(ms: seq<ContextMessage>): seq<ContextMessage> {
    if ms == [] then []
    else if ms[0].role == System then WithoutSystem(ms[1..])
    else [ms[0]] + WithoutSystem(ms[1..])
  }

  /** Highest seq stored for the turn, -1 when there is none. */
  function MaxSeq(rows: seq<Row>, project: string, turn: nat): (n: int)
    ensures n >= -1
    ensures forall x | x in rows && x.project == project && x.turn == turn :: x.seqNo <= n
    ensures n >= 0 ==> exists x :: x in rows && x.project == project && x.turn == turn && x.seqNo == n
  {
    if rows == [] then -1
    else
      assert forall x :: x in rows <==> x == rows[0] || x in rows[1..];
      var rest := MaxSeq(rows[1..], project, turn);
      if rows[0].project == project && rows[0].turn == turn && rows[0].seqNo > rest then rows[0].seqNo else rest
  }

  /** Highest turn stored for the project, 0 when there is none. */
  function LatestTurn(rows: seq<Row>, project: string): (n: nat)
    ensures forall x | x in rows && x.project == project :: x.turn <= n
    ensures n > 0 ==> exists x :: x in rows && x.project == project && x.turn == n
  {
    if rows == [] then 0
    else
      assert forall x :: x in rows <==> x == rows[0] || x in rows[1..];
      var rest := LatestTurn(rows[1..], project);
      if rows[0].project == project && rows[0].turn > rest then rows[0].turn else rest
  }

  function NewRows(project: string, turn: nat, base: nat, ms: seq<ContextMessage>, now: nat): (r: seq<Row>)
    ensures |r| == |ms|
  {
    seq(|ms|, i requires 0 <= i < |ms| => Row(project, turn, base + i, now, StoredForm(ms[i])))
  }

  /** The rows persistMessages adds. */
  function BatchRows(rows: seq<Row>, project: string, turn: nat, ms: seq<ContextMessage>, now: nat): seq<Row> {
    NewRows(project, turn, MaxSeq(rows, project, turn) + 1, WithoutSystem(ms), now)
  }

  function WithoutLater(rows: seq<Row>, project: string, keepThrough: int): (r: seq<Row>)
    ensures forall x :: x in r <==> x in rows && (x.project != project || x.turn <= keepThrough)
  {
    if rows == [] then []
    else
      assert forall x :: x in rows <==> x == rows[0] || x in rows[1..];
      if rows[0].project == project && rows[0].turn > keepThrough then WithoutLater(rows[1..], project, keepThrough)
      else [rows[0]] + WithoutLater(rows[1..], project, keepThrough)
  }

  lemma WithoutLaterStep(kept: seq<Row>, rows: seq<Row>, i: nat, project: string, keepThrough: int)
    requires i < |rows|
    ensures kept + WithoutLater(rows[i..], project, keepThrough)
         == (if rows[i].project == project && rows[i].turn > keepThrough then kept else kept + [rows[i]])
            + WithoutLater(rows[i + 1..], project, keepThrough)
  {
    assert rows[i..][1..] == rows[i + 1..];
    MoveOne(kept, rows[i], WithoutLater(rows[i + 1..], project, keepThrough));
  }

  /** A batch for the latest turn (or a new one) is appended to what reading returns; no other project
      notices. */
  lemma BatchIsAppended(rows: seq<Row>, project: string, turn: nat, ms: seq<ContextMessage>, now: nat)
    requires UniqueKeys(rows) && turn >= LatestTurn(rows, project)
    ensures var batch := BatchRows(rows, project, turn, ms, now);
            && UniqueKeys(rows + batch)
            && Read(rows + batch, project) == Read(rows, project) + batch
            && forall q | q != project :: Read(rows + batch, q) == Read(rows, q)
  {
    var batch := BatchRows(rows, project, turn, ms, now);
    forall x, y | x in rows && x.project == project && y in batch
      ensures KeyLess(x, y)
    {
    }
    var all := rows + batch;
    forall i, j | 0 <= i < j < |all| && all[i].project == all[j].project
      ensures KeyLess(all[i], all[j]) || KeyLess(all[j], all[i])
    {
      if i < |rows| <= j {
        assert all[i] in rows && all[j] in batch;
      }
    }
    ReadOrdered(rows, project);
    var s := Read(rows, project) + batch;
    forall i, j | 0 <= i < j < |s|
      ensures KeyLess(s[i], s[j])
    {
      if i < |Read(rows, project)| <= j {
        assert s[i] in Read(rows, project) && s[j] in batch;
      }
    }
    ReadIs(all, project, s);
    forall q | q != project
      ensures Read(all, q) == Read(rows, q)
    {
      ReadOrdered(rows, q);
      ReadIs(all, q, Read(rows, q));
    }
  }

  /** How many of the ordered rows `s` belong to turns up to `keepThrough`. */
  function KeptCount(s: seq<Row>, keepThrough: int): (n: nat)
    ensures n <= |s|
    ensures forall k | 0 <= k < n :: s[k].turn <= keepThrough
    ensures n < |s| ==> s[n].turn > keepThrough
  {
    if s == [] || s[0].turn > keepThrough then 0 else 1 + KeptCount(s[1..], keepThrough)
  }

  lemma {:induction false} WithoutLaterUnique(rows: seq<Row>, project: string, keepThrough: int)
    requires UniqueKeys(rows)
    ensures UniqueKeys(WithoutLater(rows, project, keepThrough))
  {
    if rows != [] {
      WithoutLaterUnique(rows[1..], project, keepThrough);
      var rest := WithoutLater(rows[1..], project, keepThrough);
      forall k | 0 <= k < |rest| && rest[k].project == rows[0].project
        ensures KeyLess(rows[0], rest[k]) || KeyLess(rest[k], rows[0])
      {
        assert rest[k] in rest;
        var j :| 0 <= j < |rows[1..]| && rows[1..][j] == rest[k];
        assert rows[j + 1] == rest[k];
      }
    }
  }

  lemma KeptRows(s: seq<Row>, keepThrough: int)
    requires Ordered(s)
    ensures forall x :: x in s[..KeptCount(s, keepThrough)] <==> x in s && x.turn <= keepThrough
  {
    var n := KeptCount(s, keepThrough);
    forall k | n <= k < |s|
      ensures s[k].turn > keepThrough
    {
      assert k == n || KeyLess(s[n], s[k]);
    }
  }

  /** A rewind cuts what reading returns after the kept turns; no other project notices. */
  lemma RewindIsPrefix(rows: seq<Row>, project: string, keepThrough: int)
    requires UniqueKeys(rows)
    ensures UniqueKeys(WithoutLater(rows, project, keepThrough))
    ensures Read(WithoutLater(rows, project, keepThrough), project)
         == Read(rows, project)[..KeptCount(Read(rows, project), keepThrough)]
    ensures forall q | q != project :: Read(WithoutLater(rows, project, keepThrough), q) == Read(rows, q)
  {
    var kept := WithoutLater(rows, project, keepThrough);
    WithoutLaterUnique(rows, project, keepThrough);
    ReadOrdered(rows, project);
    KeptRows(Read(rows, project), keepThrough);
    ReadIs(kept, project, Read(rows, project)[..KeptCount(Read(rows, project), keepThrough)]);
    forall q | q != project
      ensures Read(kept, q) == Read(rows, q)
    {
      ReadOrdered(rows, q);
      ReadIs(kept, q, Read(rows, q));
    }
  }

  // ---------------------------------------------------------------------------------------------
  // Whole runs

  datatype Op =
    | Save(project: string, turn: nat, messages: seq<ContextMessage>)
    | Rewind(project: string, keepThrough: int)
    | Clear(project: string)

  /** A turn is saved only while no later turn of its project is stored. */
  predicate Legal(rows: seq<Row>, op: Op) {
    match op
    case Save(p, turn, _) => turn >= LatestTurn(rows, p)
    case _ => true
  }

  function Apply(rows: seq<Row>, op: Op, now: nat): seq<Row> {
    match op
    case Save(p, turn, ms) => rows + BatchRows(rows, p, turn, ms, now)
    case Rewind(p, keep) => WithoutLater(rows, p, keep)
    case Clear(p) => WithoutLater(rows, p, -1)
  }

  /** An entry of the append log: no sequence numbers, no keys. */
  datatype Entry = Entry(turn: nat, msg: ContextMessage)

  function Entries(s: seq<Row>): (r: seq<Entry>)
    ensures |r| == |s|
  {
    seq(|s|, i requires 0 <= i < |s| => Entry(s[i].turn, s[i].msg))
  }

  function UpTo(log: seq<Entry>, keepThrough: int): seq<Entry> {
    if log == [] then []
    else if log[0].turn > keepThrough then UpTo(log[1..], keepThrough)
    else [log[0]] + UpTo(log[1..], keepThrough)
  }

  function Tagged(turn: nat, ms: seq<ContextMessage>): seq<Entry> {
    seq(|ms|, i requires 0 <= i < |ms| => Entry(turn, StoredForm(ms[i])))
  }

  /** What the operation does to the project's append log. */
  function Append(log: seq<Entry>, project: string, op: Op): seq<Entry> {
    if op.project != project then log
    else
      match op
      case Save(_, turn, ms) => log + Tagged(turn, WithoutSystem(ms))
      case Rewind(_, keep) => UpTo(log, keep)
      case Clear(_) => []
  }

  /** Runs of operations, each with the time it happens at. */
  function Run(rows: seq<Row>, ops: seq<(Op, nat)>): seq<Row>
    decreases |ops|
  {
    if ops == [] then rows else Run(Apply(rows, ops[0].0, ops[0].1), ops[1..])
  }

  predicate LegalRun(rows: seq<Row>, ops: seq<(Op, nat)>)
    decreases |ops|
  {
    ops != [] ==> Legal(rows, ops[0].0) && LegalRun(Apply(rows, ops[0].0, ops[0].1), ops[1..])
  }

  function Log(log: seq<Entry>, project: string, ops: seq<(Op, nat)>): seq<Entry>
    decreases |ops|
  {
    if ops == [] then log else Log(Append(log, project, ops[0].0), project, ops[1..])
  }

  lemma {:induction false} UpToIsPrefix(s: seq<Row>, keepThrough: int)
    requires Ordered(s)
    ensures Entries(s[..KeptCount(s, keepThrough)]) == UpTo(Entries(s), keepThrough)
  {
    if s != [] {
      var rest := s[1..];
      UpToIsPrefix(rest, keepThrough);
      assert Entries(s)[1..] == Entries(rest);
      var n := KeptCount(s, keepThrough);
      if s[0].turn <= keepThrough {
        assert s[..n] == [s[0]] + rest[..n - 1];
      } else {
        assert s[0].turn > keepThrough;
        if rest != [] {
          assert KeyLess(s[0], s[1]);
        }
        assert KeptCount(rest, keepThrough) == 0;
        assert rest[..0] == [] && s[..0] == [];
      }
    }
  }

  /** Storing the user's prompt opens the next turn: it is a batch of one message. */
  lemma PromptIsSave(rows: seq<Row>, project: string, m: ContextMessage, now: nat)
    requires m.role != System
    ensures rows + [Row(project, LatestTurn(rows, project) + 1, 0, now, StoredForm(m))]
         == Apply(rows, Save(project, LatestTurn(rows, project) + 1, [m]), now)
    ensures Legal(rows, Save(project, LatestTurn(rows, project) + 1, [m]))
  {
    assert MaxSeq(rows, project, LatestTurn(rows, project) + 1) == -1;
    assert WithoutSystem([m]) == [m];
  }

  lemma SaveIsLogged(rows: seq<Row>, project: string, turn: nat, ms: seq<ContextMessage>, now: nat, q: string)
    requires UniqueKeys(rows) && turn >= LatestTurn(rows, project)
    ensures UniqueKeys(Apply(rows, Save(project, turn, ms), now))
    ensures Entries(Read(Apply(rows, Save(project, turn, ms), now), q))
         == Append(Entries(Read(rows, q)), q, Save(project, turn, ms))
  {
    BatchIsAppended(rows, project, turn, ms, now);
    EntriesOfBatch(Read(rows, project), project, turn, MaxSeq(rows, project, turn) + 1, WithoutSystem(ms), now);
  }

  lemma EntriesOfBatch(s: seq<Row>, project: string, turn: nat, base: nat, ms: seq<ContextMessage>, now: nat)
    ensures Entries(s + NewRows(project, turn, base, ms, now)) == Entries(s) + Tagged(turn, ms)
  {
  }

  lemma RewindIsLogged(rows: seq<Row>, project: string, keepThrough: int, q: string)
    requires UniqueKeys(rows)
    ensures UniqueKeys(WithoutLater(rows, project, keepThrough))
    ensures Entries(Read(WithoutLater(rows, project, keepThrough), q))
         == if q == project then UpTo(Entries(Read(rows, q)), keepThrough) else Entries(Read(rows, q))
  {
    RewindIsPrefix(rows, project, keepThrough);
    ReadOrdered(rows, project);
    UpToIsPrefix(Read(rows, project), keepThrough);
  }

  lemma {:induction false} UpToNothing(log: seq<Entry>)
    ensures UpTo(log, -1) == []
  {
    if log != [] {
      UpToNothing(log[1..]);
    }
  }

  lemma OpIsLogged(rows: seq<Row>, op: Op, now: nat, project: string)
    requires UniqueKeys(rows) && Legal(rows, op)
    ensures UniqueKeys(Apply(rows, op, now))
    ensures Entries(Read(Apply(rows, op, now), project)) == Append(Entries(Read(rows, project)), project, op)
  {
    match op
    case Save(p, turn, ms) => SaveIsLogged(rows, p, turn, ms, now, project);
    case Rewind(p, keep) => RewindIsLogged(rows, p, keep, project);
    case Clear(p) =>
      RewindIsLogged(rows, p, -1, project);
      UpToNothing(Entries(Read(rows, project)));
  }

  /** Over every run, keys stay unique and reading a project in key order gives its append log, rewinds
      included; getRecent gives the end of it. */
  lemma {:induction false} ReadingIsTheLog(rows: seq<Row>, ops: seq<(Op, nat)>, project: string)
    requires UniqueKeys(rows) && LegalRun(rows, ops)
    ensures UniqueKeys(Run(rows, ops))
    ensures Entries(Read(Run(rows, ops), project)) == Log(Entries(Read(rows, project)), project, ops)
    decreases |ops|
  {
    if ops != [] {
      var next := Apply(rows, ops[0].0, ops[0].1);
      OpIsLogged(rows, ops[0].0, ops[0].1, project);
      ReadingIsTheLog(next, ops[1..], project);
    }
  }

  // ---------------------------------------------------------------------------------------------
  // /api/chat/compact: the oldest rows of a reading window are replaced by one summary row

  function Messages(s: seq<Row>): (r: seq<ContextMessage>)
    ensures |r| == |s|
  {
    seq(|s|, i requires 0 <= i < |s| => s[i].msg)
  }

  function Without(rows: seq<Row>, evicted: seq<Row>): (r: seq<Row>)
    ensures forall x :: x in r <==> x in rows && x !in evicted
  {
    if rows == [] then []
    else
      assert forall x :: x in rows <==> x == rows[0] || x in rows[1..];
      if rows[0] in evicted then Without(rows[1..], evicted) else [rows[0]] + Without(rows[1..], evicted)
  }

  /** The table after rows s[i..j] of the reading order were replaced by a summary stored under the turn
      of the first of them, with the default seq 0. */
  function Summarized(rows: seq<Row>, project: string, i: nat, j: nat, summary: ContextMessage, now: nat): seq<Row>
    requires i < j <= |Read(rows, project)|
  {
    var s := Read(rows, project);
    Without(rows, s[i..j]) + [Row(project, s[i].turn, 0, now, summary)]
  }

  /** The summary takes the place of the rows it summarizes, under a key of its own, exactly when the
      first evicted row opens its turn. */
  lemma SummaryInPlace(rows: seq<Row>, project: string, i: nat, j: nat, summary: ContextMessage, now: nat)
    requires UniqueKeys(rows) && i < j <= |Read(rows, project)|
    ensures var s := Read(rows, project);
            var row := Row(project, s[i].turn, 0, now, summary);
            var rows' := Summarized(rows, project, i, j, summary, now);
            (UniqueKeys(rows') && Read(rows', project) == s[..i] + [row] + s[j..]) <==>
            (i == 0 || s[i - 1].turn < s[i].turn)
  {
    var s := Read(rows, project);
    var row := Row(project, s[i].turn, 0, now, summary);
    var rows' := Summarized(rows, project, i, j, summary, now);
    var t := s[..i] + [row] + s[j..];
    ReadOrdered(rows, project);
    if i == 0 || s[i - 1].turn < s[i].turn {
      SummaryKeyFits(rows, project, i, j, summary, now);
      ReadIs(rows', project, t);
    }
    if UniqueKeys(rows') && Read(rows', project) == t && i > 0 {
      ReadOrdered(rows', project);
      assert KeyLess(t[i - 1], t[i]);
    }
  }

  lemma {:induction false} WithoutUnique(rows: seq<Row>, evicted: seq<Row>)
    requires UniqueKeys(rows)
    ensures UniqueKeys(Without(rows, evicted))
  {
    if rows != [] {
      WithoutUnique(rows[1..], evicted);
      var rest := Without(rows[1..], evicted);
      forall k | 0 <= k < |rest| && rest[k].project == rows[0].project
        ensures KeyLess(rows[0], rest[k]) || KeyLess(rest[k], rows[0])
      {
        assert rest[k] in rest;
        var j :| 0 <= j < |rows[1..]| && rows[1..][j] == rest[k];
        assert rows[j + 1] == rest[k];
      }
    }
  }

  lemma SummaryKeyFits(rows: seq<Row>, project: string, i: nat, j: nat, summary: ContextMessage, now: nat)
    requires UniqueKeys(rows) && i < j <= |Read(rows, project)|
    requires i == 0 || Read(rows, project)[i - 1].turn < Read(rows, project)[i].turn
    ensures var s := Read(rows, project);
            var t := s[..i] + [Row(project, s[i].turn, 0, now, summary)] + s[j..];
            var rows' := Summarized(rows, project, i, j, summary, now);
            UniqueKeys(rows') && Ordered(t) && forall x :: x in t <==> x in rows' && x.project == project
  {
    var s := Read(rows, project);
    var row := Row(project, s[i].turn, 0, now, summary);
    var rest := Without(rows, s[i..j]);
    ReadOrdered(rows, project);
    WithoutUnique(rows, s[i..j]);
    RemainingRows(rows, project, i, j);
    SummaryOrdered(s, i, j, row);
    forall a | 0 <= a < |rest| && rest[a].project == project
      ensures KeyLess(rest[a], row) || KeyLess(row, rest[a])
    {
      assert rest[a] in rest;
      assert rest[a] in s[..i] || rest[a] in s[j..];
    }
  }

  lemma SummaryOrdered(s: seq<Row>, i: nat, j: nat, row: Row)
    requires Ordered(s) && i < j <= |s| && row.turn == s[i].turn && row.seqNo == 0
    requires i == 0 || s[i - 1].turn < s[i].turn
    ensures forall x | x in s[..i] :: KeyLess(x, row)
    ensures forall x | x in s[j..] :: KeyLess(row, x)
    ensures Ordered(s[..i] + [row] + s[j..])
  {
    forall a | 0 <= a < i
      ensures KeyLess(s[a], row)
    {
      assert a == i - 1 || KeyLess(s[a], s[i - 1]);
    }
    forall b | j <= b < |s|
      ensures KeyLess(row, s[b])
    {
      assert KeyLess(s[i], s[b]);
    }
  }

  lemma RemainingRows(rows: seq<Row>, project: string, i: nat, j: nat)
    requires UniqueKeys(rows) && i < j <= |Read(rows, project)|
    ensures var s := Read(rows, project);
            forall x :: x in s[..i] || x in s[j..] <==> x in Without(rows, s[i..j]) && x.project == project
  {
    var s := Read(rows, project);
    ReadOrdered(rows, project);
    forall a | i <= a < j
      ensures s[a] in s[i..j]
    {
      assert s[i..j][a - i] == s[a];
    }
    forall x
      ensures x in s[..i] || x in s[j..] <==> x in s && x !in s[i..j]
    {
      if x in s && x !in s[i..j] {
        var a :| 0 <= a < |s| && s[a] == x;
        assert a < i ==> s[..i][a] == x;
        assert j <= a ==> s[j..][a - j] == x;
      }
      if x in s[..i] || x in s[j..] {
        OutsideSpan(s, i, j, x);
      }
    }
  }

  lemma OutsideSpan(s: seq<Row>, i: nat, j: nat, x: Row)
    requires Ordered(s) && i < j <= |s|
    requires x in s[..i] || x in s[j..]
    ensures x in s && x !in s[i..j]
  {
    if x in s[j..] {
      var b :| 0 <= b < |s[j..]| && s[j..][b] == x;
      assert s[j + b] == x;
    }
    var a :| 0 <= a < |s| && s[a] == x && (a < i || j <= a);
    forall b | i <= b < j
      ensures s[b] != x
    {
      assert if a < b then KeyLess(s[a], s[b]) else KeyLess(s[b], s[a]);
    }
  }
}
