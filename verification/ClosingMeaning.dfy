/** What closing dangling tool calls does to each assistant message, read off the history. */
module ClosingMeaning {
  import opened Sequences
  import opened Options
  import opened Conversation

  /** The tool messages behind position `i` reach up to `j`. */
  ghost predicate RunTo(ms: seq<ContextMessage>, i: nat, j: nat) {
    i < j <= |ms| && (forall k | i < k < j :: ms[k].role == Tool) && (j < |ms| ==> ms[j].role != Tool)
  }

  /** The calls of message `i` that no tool message between `i` and `j` carries the id of. */
  ghost function Unanswered(ms: seq<ContextMessage>, i: nat, j: nat): set<nat>
    requires i < j <= |ms|
  {
    set n: nat | n < |ms[i].toolCalls| && forall k | i < k < j :: ms[k].toolCallId != Some(ms[i].toolCalls[n].id)
  }

  /** A tool message that says the call was not run. */
  ghost predicate SaysNotRun(m: ContextMessage, call: ToolCall) {
    && m.role == Tool && m.toolCallId == Some(call.id) && m.toolName == Some(call.name) && m.toolCalls == []
    && m.content == Text("[Not run: the turn ended before this tool call executed]")
  }

  /** Such messages for the calls at these positions. */
  ghost predicate SayNotRun(added: seq<ContextMessage>, calls: seq<ToolCall>, at: seq<nat>) {
    |added| == |at| && forall k | 0 <= k < |at| :: at[k] < |calls| && SaysNotRun(added[k], calls[at[k]])
  }

  lemma {:induction false} MissingLast(calls: seq<ToolCall>, call: ToolCall, answered: Ids)
    ensures Missing(calls + [call], answered)
         == Missing(calls, answered) + if Some(call.id) in answered then [] else [NotRun(call)]
  {
    if calls == [] {
      assert calls + [call] == [call] && [call][1..] == [];
    } else {
      MissingLast(calls[1..], call, answered);
      assert (calls + [call])[1..] == calls[1..] + [call];
    }
  }

  ghost function Without(calls: seq<ToolCall>, answered: Ids): set<nat> {
    set n: nat | n < |calls| && Some(calls[n].id) !in answered
  }

  lemma {:induction false} MissingSays(calls: seq<ToolCall>, answered: Ids) returns (at: seq<nat>)
    ensures Lists(at, Without(calls, answered)) && SayNotRun(Missing(calls, answered), calls, at)
    decreases |calls|
  {
    at := [];
    if calls != [] {
      var n := |calls| - 1;
      var front := calls[..n];
      at := MissingSays(front, answered);
      assert calls == front + [calls[n]];
      MissingLast(front, calls[n], answered);
      assert forall k: nat | k < n :: front[k] == calls[k];
      if Some(calls[n].id) in answered {
        assert Without(calls, answered) == Without(front, answered);
      } else {
        assert Without(calls, answered) == Without(front, answered) + {n};
        ListsMore(at, Without(front, answered), n);
        at := at + [n];
      }
    }
  }

  ghost function IdsIn(ms: seq<ContextMessage>, i: nat, j: nat): Ids
    requires i <= j <= |ms|
  {
    set k | i <= k < j :: ms[k].toolCallId
  }

  lemma {:induction false} RunStays(ms: seq<ContextMessage>, i: nat, j: nat, calls: seq<ToolCall>, answered: Ids)
    requires i <= j <= |ms| && calls != [] && forall k | i <= k < j :: ms[k].role == Tool
    ensures Closed(ms[i..], calls, answered) == ms[i..j] + Closed(ms[j..], calls, answered + IdsIn(ms, i, j))
    decreases j - i
  {
    if i < j {
      ClosedAt(ms, i, calls, answered);
      RunStays(ms, i + 1, j, calls, answered + {ms[i].toolCallId});
      assert IdsIn(ms, i, j) == {ms[i].toolCallId} + IdsIn(ms, i + 1, j);
      assert answered + {ms[i].toolCallId} + IdsIn(ms, i + 1, j) == answered + IdsIn(ms, i, j);
      assert ms[i..j] == [ms[i]] + ms[i + 1..j];
      Associate([ms[i]], ms[i + 1..j], Closed(ms[j..], calls, answered + IdsIn(ms, i, j)));
    } else {
      assert answered + IdsIn(ms, i, j) == answered;
      assert ms[i..j] == [];
    }
  }

  /** An assistant message with calls stays, with the tool messages behind it; behind those come messages that say
      of its unanswered calls, in order, that they were not run; and then what closing makes of the rest. */
  lemma CallsAreClosed(ms: seq<ContextMessage>, i: nat, j: nat) returns (added: seq<ContextMessage>, at: seq<nat>)
    requires RunTo(ms, i, j) && ms[i].role == Assistant && ms[i].toolCalls != []
    ensures Closed(ms[i..], [], {}) == ms[i..j] + added + Closed(ms[j..], [], {})
    ensures Lists(at, Unanswered(ms, i, j)) && SayNotRun(added, ms[i].toolCalls, at)
  {
    var calls, ids := ms[i].toolCalls, IdsIn(ms, i + 1, j);
    RunStays(ms, i + 1, j, calls, {});
    assert {} + ids == ids;
    BlockClosed(ms, i, j, ms[i + 1..j], ids);
    HeadAndRun(ms, i, j);
    added := Missing(calls, ids);
    at := MissingSays(calls, ids);
    UnansweredIs(ms, i, j, ids);
  }

  lemma HeadAndRun(ms: seq<ContextMessage>, i: nat, j: nat)
    requires i < j <= |ms|
    ensures [ms[i]] + ms[i + 1..j] == ms[i..j]
  {
  }

  lemma UnansweredIs(ms: seq<ContextMessage>, i: nat, j: nat, ids: Ids)
    requires i < j <= |ms| && ids == IdsIn(ms, i + 1, j)
    ensures Without(ms[i].toolCalls, ids) == Unanswered(ms, i, j)
  {
    var calls := ms[i].toolCalls;
    forall n: nat | n < |calls|
      ensures Some(calls[n].id) !in ids <==> forall k | i < k < j :: ms[k].toolCallId != Some(calls[n].id)
    {
    }
  }

  /** Any other message stays as it is. */
  lemma OthersStay(ms: seq<ContextMessage>, i: nat)
    requires i < |ms| && !(ms[i].role == Assistant && ms[i].toolCalls != [])
    ensures Closed(ms[i..], [], {}) == [ms[i]] + Closed(ms[i + 1..], [], {})
    ensures Closed(ms[|ms|..], [], {}) == []
  {
    ClosedAt(ms, i, [], {});
  }
}
