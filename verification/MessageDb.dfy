/** The messages table as an object whose rows are inserted, deleted and queried. */
module MessageDb {
  import opened Conversation
  import opened MessageTable
  import opened RowMeaning

  class Database {
    var rows: seq<Row>

    constructor ()
      ensures rows == []
    {
      rows := [];
    }

    method GetMaxSeq(project: string, turn: nat) returns (n: int)
      ensures n == MaxSeq(rows, project, turn)
    {
      n := -1;
      var i := |rows|;
      while i > 0
        invariant 0 <= i <= |rows|
        invariant n == MaxSeq(rows[i..], project, turn)
      {
        i := i - 1;
        assert rows[i..][1..] == rows[i + 1..];
        if rows[i].project == project && rows[i].turn == turn && rows[i].seqNo > n {
          n := rows[i].seqNo;
        }
      }
      assert rows[0..] == rows;
    }

    method GetLatestTurnIndex(project: string) returns (n: nat)
      ensures n == LatestTurn(rows, project)
    {
      n := 0;
      var i := |rows|;
      while i > 0
        invariant 0 <= i <= |rows|
        invariant n == LatestTurn(rows[i..], project)
      {
        i := i - 1;
        assert rows[i..][1..] == rows[i + 1..];
        if rows[i].project == project && rows[i].turn > n {
          n := rows[i].turn;
        }
      }
      assert rows[0..] == rows;
    }

    /** Stores the user's prompt under a new turn, with the default seq 0. */
    method InsertPrompt(project: string, prompt: ContextMessage, now: nat) returns (turn: nat)
      requires prompt.role != System
      modifies this
      ensures turn == LatestTurn(old(rows), project) + 1
      ensures rows == Apply(old(rows), Save(project, turn, [prompt]), now)
      ensures UniqueKeys(old(rows)) ==> UniqueKeys(rows)
    {
      PromptIsSave(rows, project, prompt, now);
      if UniqueKeys(rows) {
        BatchIsAppended(rows, project, LatestTurn(rows, project) + 1, [prompt], now);
      }
      var latest := GetLatestTurnIndex(project);
      turn := latest + 1;
      rows := rows + [Row(project, turn, 0, now, StoredForm(prompt))];
    }

    /** The rows to insert. */
    method RowsToInsert(project: string, messages: seq<ContextMessage>, turn: nat, now: nat) returns (batch: seq<Row>)
      ensures batch == BatchRows(rows, project, turn, messages, now)
    {
      var top := GetMaxSeq(project, turn);
      var kept := WithoutSystem(messages);
      batch := [];
      for i := 0 to |kept|
        invariant batch == NewRows(project, turn, top + 1, kept, now)[..i]
      {
        batch := batch + [Row(project, turn, top + 1 + i, now, StoredForm(kept[i]))];
      }
    }

    /** One transaction: either every message becomes a row or, if it fails, none. */
    method PersistMessages(project: string, messages: seq<ContextMessage>, turn: nat, now: nat, ok: bool)
      modifies this
      ensures rows == if ok then Apply(old(rows), Save(project, turn, messages), now) else old(rows)
      ensures ok ==> old(rows) <= rows && exists at :: Saves(old(rows), rows[|old(rows)|..], project, turn, now, messages, at)
    {
      var batch := RowsToInsert(project, messages, turn, now);
      ghost var at := BatchSays(rows, project, turn, messages, now, batch);
      if ok {
        rows := rows + batch;
        assert rows[|old(rows)|..] == batch;
      }
    }

    method DeleteAfterTurn(project: string, keepThrough: int) returns (changes: nat)
      modifies this
      ensures rows == Apply(old(rows), Rewind(project, keepThrough), 0)
      ensures changes == |old(rows)| - |rows|
    {
      var kept: seq<Row> := [];
      changes := 0;
      for i := 0 to |rows|
        invariant rows == old(rows) && changes == i - |kept|
        invariant kept + WithoutLater(rows[i..], project, keepThrough) == WithoutLater(rows, project, keepThrough)
      {
        WithoutLaterStep(kept, rows, i, project, keepThrough);
        if rows[i].project == project && rows[i].turn > keepThrough {
          changes := changes + 1;
        } else {
          kept := kept + [rows[i]];
        }
      }
      rows := kept;
    }
  }
}
