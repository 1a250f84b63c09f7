/** What a save writes: which messages become rows, under which keys, and what of them the rows keep. */
module RowMeaning {
  import opened Sequences
  import opened Conversation
  import opened MessageTable

  /** The row keeps everything of the message, but for absent content, which becomes the empty string. */
  ghost predicate Keeps(stored: ContextMessage, m: ContextMessage) {
    && stored.role == m.role && stored.toolCalls == m.toolCalls && stored.toolCallId == m.toolCallId && stored.toolName == m.toolName
    && stored.content == if m.content.NoContent? then Text("") else m.content
  }

  lemma FormKeeps(m: ContextMessage)
    ensures Keeps(StoredForm(m), m)
  {
  }

  /** The messages that are no system messages. */
  ghost function Storable(ms: seq<ContextMessage>): set<nat> { set i | 0 <= i < |ms| && !ms[i].role.System? }

  /** The `k`-th row of a batch: of this project and turn, the next seq, and what the message says. */
  ghost predicate RowOf(r: Row, project: string, turn: nat, seqNo: int, now: nat, ms: seq<ContextMessage>, i: nat) {
    && r.project == project && r.turn == turn && r.seqNo == seqNo && r.createdAt == now
    && i < |ms| && Keeps(r.msg, ms[i])
  }

  /** The rows are those messages but the system ones, in order, with consecutive seqs from `base` on. */
  ghost predicate RowsOf(rows: seq<Row>, project: string, turn: nat, base: int, now: nat, ms: seq<ContextMessage>, at: seq<nat>) {
    |rows| == |at| && Lists(at, Storable(ms)) && forall k | 0 <= k < |at| :: RowOf(rows[k], project, turn, base + k, now, ms, at[k])
  }

  /** A save adds them behind what the turn has. */
  ghost predicate Saves(rows: seq<Row>, batch: seq<Row>, project: string, turn: nat, now: nat, ms: seq<ContextMessage>, at: seq<nat>) {
    RowsOf(batch, project, turn, MaxSeq(rows, project, turn) + 1, now, ms, at)
  }

  ghost predicate PickedAt(picked: seq<ContextMessage>, k: nat, ms: seq<ContextMessage>, i: nat) {
    k < |picked| && i < |ms| && picked[k] == ms[i]
  }

  lemma {:induction false} FilterAppend(a: seq<ContextMessage>, m: ContextMessage)
    ensures WithoutSystem(a + [m]) == if m.role.System? then WithoutSystem(a) else WithoutSystem(a) + [m]
  {
    if a == [] {
      assert a + [m] == [m] && [m][1..] == [];
    } else {
      FilterAppend(a[1..], m);
      assert (a + [m])[0] == a[0] && (a + [m])[1..] == a[1..] + [m];
    }
  }

  lemma {:induction false} StorablePicked(ms: seq<ContextMessage>) returns (at: seq<nat>)
    ensures Lists(at, Storable(ms)) && |WithoutSystem(ms)| == |at|
    ensures forall k | 0 <= k < |at| :: PickedAt(WithoutSystem(ms), k, ms, at[k])
    decreases |ms|
  {
    at := [];
    if ms != [] {
      var n := |ms| - 1;
      var front := StorablePicked(ms[..n]);
      assert ms == ms[..n] + [ms[n]];
      FilterAppend(ms[..n], ms[n]);
      StorableMore(ms, n);
      if ms[n].role.System? {
        at := front;
      } else {
        ListsMore(front, Storable(ms[..n]), n);
        at := front + [n];
      }
      forall k | 0 <= k < |at|
        ensures PickedAt(WithoutSystem(ms), k, ms, at[k])
      {
        assert k < |front| ==> PickedAt(WithoutSystem(ms[..n]), k, ms[..n], front[k]);
      }
    }
  }

  lemma StorableMore(ms: seq<ContextMessage>, n: nat)
    requires |ms| == n + 1
    ensures Storable(ms) == if ms[n].role.System? then Storable(ms[..n]) else Storable(ms[..n]) + {n}
  {
    forall i
      ensures i in Storable(ms) <==> i in Storable(ms[..n]) || (i == n && !ms[n].role.System?)
    {
      assert 0 <= i < n ==> ms[..n][i] == ms[i];
    }
  }

  /** What a save adds to the table says what the messages say. */
  lemma BatchSays(rows: seq<Row>, project: string, turn: nat, ms: seq<ContextMessage>, now: nat, batch: seq<Row>)
    returns (at: seq<nat>)
    requires batch == BatchRows(rows, project, turn, ms, now)
    ensures Saves(rows, batch, project, turn, now, ms, at)
  {
    at := StorablePicked(ms);
    forall k | 0 <= k < |at|
      ensures RowOf(batch[k], project, turn, MaxSeq(rows, project, turn) + 1 + k, now, ms, at[k])
    {
      assert PickedAt(WithoutSystem(ms), k, ms, at[k]);
      FormKeeps(ms[at[k]]);
    }
  }

  /** The seq a batch starts with: one more than any the turn has, 0 if it has none. */
  lemma NextSeq(rows: seq<Row>, project: string, turn: nat)
    ensures forall x | x in rows && x.project == project && x.turn == turn :: x.seqNo <= MaxSeq(rows, project, turn)
    ensures MaxSeq(rows, project, turn) == -1 <==> forall x | x in rows && x.project == project :: x.turn != turn
    ensures MaxSeq(rows, project, turn) >= 0 ==>
              exists x :: x in rows && x.project == project && x.turn == turn && x.seqNo == MaxSeq(rows, project, turn)
  {
  }

  // ---------------------------------------------------------------------------------------------
  // Whole histories of a table

  /** What remains of the messages when the system ones are left out. */
  ghost function NoSystem(ms: seq<ContextMessage>): seq<ContextMessage> {
    if ms == [] then [] else NoSystem(ms[..|ms| - 1]) + if ms[|ms| - 1].role.System? then [] else [ms[|ms| - 1]]
  }

  ghost function Said(turn: nat, ms: seq<ContextMessage>): (r: seq<Entry>)
    ensures |r| == |ms|
  {
    seq(|ms|, i requires 0 <= i < |ms| => Entry(turn, ms[i]))
  }

  /** What was said in a project, as it was said: saves add to it, a rewind takes later turns back. */
  ghost function SaidLog(log: seq<Entry>, project: string, ops: seq<(Op, nat)>): seq<Entry>
    decreases |ops|
  {
    if ops == [] then log else SaidLog(SaidMore(log, project, ops[0].0), project, ops[1..])
  }

  ghost function SaidMore(log: seq<Entry>, project: string, op: Op): seq<Entry> {
    match op
    case Save(p, turn, ms) => if p == project then log + Said(turn, NoSystem(ms)) else log
    case Rewind(p, keep) => if p == project then UpTo(log, keep) else log
    case Clear(p) => if p == project then [] else log
  }

  /** The rows tell the log, entry by entry. */
  ghost predicate TellsLog(s: seq<Row>, log: seq<Entry>) {
    |s| == |log| && forall k | 0 <= k < |s| :: s[k].turn == log[k].turn && Keeps(s[k].msg, log[k].msg)
  }

  lemma {:induction false} NoSystemIsFilter(ms: seq<ContextMessage>)
    ensures NoSystem(ms) == WithoutSystem(ms)
    decreases |ms|
  {
    if ms != [] {
      var n := |ms| - 1;
      NoSystemIsFilter(ms[..n]);
      FilterAppend(ms[..n], ms[n]);
      assert ms == ms[..n] + [ms[n]];
    }
  }

  lemma RowsTell(project: string, turn: nat, base: nat, ms: seq<ContextMessage>, now: nat)
    ensures TellsLog(NewRows(project, turn, base, ms, now), Said(turn, ms))
  {
    forall k | 0 <= k < |ms|
      ensures Keeps(NewRows(project, turn, base, ms, now)[k].msg, ms[k])
    {
      FormKeeps(ms[k]);
    }
  }

  lemma TellsMore(s: seq<Row>, log: seq<Entry>, more: seq<Row>, said: seq<Entry>)
    requires TellsLog(s, log) && TellsLog(more, said)
    ensures TellsLog(s + more, log + said)
  {
  }

  lemma {:induction false} UpToPrefix(s: seq<Row>, log: seq<Entry>, keepThrough: int)
    requires Ordered(s) && TellsLog(s, log)
    ensures KeptCount(s, keepThrough) <= |log| && UpTo(log, keepThrough) == log[..KeptCount(s, keepThrough)]
    decreases |s|
  {
    if s != [] {
      var rest := s[1..];
      UpToPrefix(rest, log[1..], keepThrough);
      if s[0].turn > keepThrough {
        NothingKept(rest, s[0].turn, keepThrough);
      } else {
        assert log[..KeptCount(s, keepThrough)] == [log[0]] + log[1..][..KeptCount(rest, keepThrough)];
      }
    }
  }

  lemma {:induction false} NothingKept(s: seq<Row>, turn: nat, keepThrough: int)
    requires turn > keepThrough && forall k | 0 <= k < |s| :: s[k].turn >= turn
    ensures KeptCount(s, keepThrough) == 0
  {
  }

  lemma OpTells(rows: seq<Row>, op: Op, now: nat, project: string, log: seq<Entry>)
    requires UniqueKeys(rows) && Legal(rows, op) && TellsLog(Read(rows, project), log)
    ensures UniqueKeys(Apply(rows, op, now)) && TellsLog(Read(Apply(rows, op, now), project), SaidMore(log, project, op))
  {
    match op
    case Save(p, turn, ms) => SaveTells(rows, p, turn, ms, now, project, log);
    case Rewind(p, keep) => RewindTells(rows, p, keep, project, log);
    case Clear(p) =>
      RewindTells(rows, p, -1, project, log);
      UpToNothing(log);
  }

  lemma SaveTells(rows: seq<Row>, p: string, turn: nat, ms: seq<ContextMessage>, now: nat, project: string, log: seq<Entry>)
    requires UniqueKeys(rows) && turn >= LatestTurn(rows, p) && TellsLog(Read(rows, project), log)
    ensures UniqueKeys(Apply(rows, Save(p, turn, ms), now))
    ensures TellsLog(Read(Apply(rows, Save(p, turn, ms), now), project), SaidMore(log, project, Save(p, turn, ms)))
  {
    BatchIsAppended(rows, p, turn, ms, now);
    if p == project {
      NoSystemIsFilter(ms);
      RowsTell(p, turn, MaxSeq(rows, p, turn) + 1, NoSystem(ms), now);
      TellsMore(Read(rows, project), log, BatchRows(rows, p, turn, ms, now), Said(turn, NoSystem(ms)));
    }
  }

  lemma RewindTells(rows: seq<Row>, p: string, keep: int, project: string, log: seq<Entry>)
    requires UniqueKeys(rows) && TellsLog(Read(rows, project), log)
    ensures UniqueKeys(WithoutLater(rows, p, keep))
    ensures TellsLog(Read(WithoutLater(rows, p, keep), project), if p == project then UpTo(log, keep) else log)
  {
    RewindIsPrefix(rows, p, keep);
    if p == project {
      ReadOrdered(rows, project);
      UpToTells(Read(rows, project), Read(WithoutLater(rows, p, keep), project), log, keep);
    }
  }

  lemma UpToTells(s: seq<Row>, kept: seq<Row>, log: seq<Entry>, keep: int)
    requires Ordered(s) && TellsLog(s, log) && kept == s[..KeptCount(s, keep)]
    ensures TellsLog(kept, UpTo(log, keep))
  {
    UpToPrefix(s, log, keep);
  }

  /** Over every run, what a project reads is what was said in it: every message once, in order, with all
      it said, less the turns taken back. */
  lemma {:induction false} ReadingTells(rows: seq<Row>, ops: seq<(Op, nat)>, project: string, log: seq<Entry>)
    requires UniqueKeys(rows) && LegalRun(rows, ops) && TellsLog(Read(rows, project), log)
    ensures TellsLog(Read(Run(rows, ops), project), SaidLog(log, project, ops))
    decreases |ops|
  {
    if ops != [] {
      OpTells(rows, ops[0].0, ops[0].1, project, log);
      ReadingTells(Apply(rows, ops[0].0, ops[0].1), ops[1..], project, SaidMore(log, project, ops[0].0));
    }
  }
}
