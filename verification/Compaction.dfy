/** Shrinking a conversation: the cut used for summaries, and placeholder compaction with its token
    accounting. */
module Compaction {
  import opened Options
  import opened Conversation

  // ---------------------------------------------------------------------------------------------
  // splitForCompaction

  datatype Split = Split(
    head: seq<ContextMessage>, evicted: seq<ContextMessage>, preserved: seq<ContextMessage>)

  const MIN_EVICTED := 4

  function HeadLength(ms: seq<ContextMessage>): nat {
    if ms != [] && ms[0].role == System then 1 else 0
  }

  function LatestCut(ms: seq<ContextMessage>, preserveLastN: nat): nat {
    if HeadLength(ms) <= |ms| - preserveLastN then |ms| - preserveLastN else HeadLength(ms)
  }

  /** Walks back from `b` to the nearest message that is not a tool message, but not below `start`. */
  function WalkBack(ms: seq<ContextMessage>, start: nat, b: nat): (c: nat)
    requires start <= b <= |ms|
    ensures start <= c <= b
    ensures c == start || c == |ms| || ms[c].role != Tool
    ensures forall k | c < k <= b :: k < |ms| && ms[k].role == Tool
  {
    if b > start && b < |ms| && ms[b].role == Tool then WalkBack(ms, start, b - 1) else b
  }

  function CutPoint(ms: seq<ContextMessage>, preserveLastN: nat): (c: nat)
    ensures HeadLength(ms) <= c <= |ms|
  {
    WalkBack(ms, HeadLength(ms), LatestCut(ms, preserveLastN))
  }

  method SplitForCompaction(messages: seq<ContextMessage>, preserveLastN: nat) returns (r: Option<Split>)
    ensures r == None <==> CutPoint(messages, preserveLastN) < HeadLength(messages) + MIN_EVICTED
    ensures r.Some? ==> r.value.head == messages[..HeadLength(messages)]
    ensures r.Some? ==> r.value.evicted == messages[HeadLength(messages)..CutPoint(messages, preserveLastN)]
    ensures r.Some? ==> r.value.preserved == messages[CutPoint(messages, preserveLastN)..]
  {
    var startIdx := if messages != [] && messages[0].role == System then 1 else 0;
    var boundary := if startIdx <= |messages| - preserveLastN then |messages| - preserveLastN else startIdx;
    while boundary > startIdx && boundary < |messages| && messages[boundary].role == Tool
      invariant startIdx <= boundary <= |messages|
      invariant WalkBack(messages, startIdx, boundary) == CutPoint(messages, preserveLastN)
    {
      boundary := boundary - 1;
    }
    var evicted := messages[startIdx..boundary];
    if |evicted| < MIN_EVICTED {
      return None;
    }
    return Some(Split(messages[..startIdx], evicted, messages[boundary..]));
  }

  /** The cut loses nothing, keeps at least the last `preserveLastN` messages, and moves back no
      further than the batch it would otherwise split. */
  lemma CutIsTight(ms: seq<ContextMessage>, preserveLastN: nat)
    ensures var h, c := HeadLength(ms), CutPoint(ms, preserveLastN);
            && ms == ms[..h] + ms[h..c] + ms[c..]
            && (h <= |ms| - preserveLastN ==> |ms[c..]| >= preserveLastN)
            && (c < LatestCut(ms, preserveLastN) ==>
                  forall k | c < k <= LatestCut(ms, preserveLastN) :: k < |ms| && ms[k].role == Tool)
            && (c == h || c == |ms| || ms[c].role != Tool)
  {
    var h, c := HeadLength(ms), CutPoint(ms, preserveLastN);
    assert ms[..h] + ms[h..c] == ms[..c];
  }

  /** The history may be cut here: the system prompt at its head stays, the messages asked for are behind the
      cut, and what is behind it does not start with a tool message. */
  ghost predicate MayCut(ms: seq<ContextMessage>, preserveLastN: nat, c: nat) {
    && (if ms != [] && ms[0].role.System? then 1 else 0) <= c <= |ms| - preserveLastN
    && (c < |ms| ==> !ms[c].role.Tool?)
  }

  /** A history is split at the last place where it may be cut, if four messages or more lie between its
      system prompt and that place, and not at all otherwise. */
  lemma SplitSays(ms: seq<ContextMessage>, preserveLastN: nat)
    ensures HeadLength(ms) == if ms != [] && ms[0].role.System? then 1 else 0
    ensures HeadLength(ms) + MIN_EVICTED <= CutPoint(ms, preserveLastN) ==>
              MayCut(ms, preserveLastN, CutPoint(ms, preserveLastN))
    ensures forall b: nat | MayCut(ms, preserveLastN, b) :: b <= CutPoint(ms, preserveLastN)
    ensures HeadLength(ms) + MIN_EVICTED <= CutPoint(ms, preserveLastN) <==>
              exists c: nat :: MayCut(ms, preserveLastN, c) && c >= (if ms != [] && ms[0].role.System? then 5 else 4)
  {
    var h, c := HeadLength(ms), CutPoint(ms, preserveLastN);
    forall b: nat | MayCut(ms, preserveLastN, b)
      ensures b <= c
    {
    }
    if h + MIN_EVICTED <= c {
      assert MayCut(ms, preserveLastN, c);
    }
  }

  /** Replacing the evicted span by one summary message keeps the history well paired. */
  lemma SummaryKeepsPairing(ms: seq<ContextMessage>, preserveLastN: nat, summary: ContextMessage)
    requires WellPaired(ms) && Bystander(summary)
    requires HeadLength(ms) + MIN_EVICTED <= CutPoint(ms, preserveLastN)
    ensures var h, c := HeadLength(ms), CutPoint(ms, preserveLastN);
            && WellPaired(ms[h..c])
            && WellPaired(ms[c..])
            && WellPaired(ms[..h] + [summary] + ms[c..])
  {
    var h, c := HeadLength(ms), CutPoint(ms, preserveLastN);
    CutIsTight(ms, preserveLastN);
    PairedCut(ms, c);
    if h == 1 {
      assert Bystander(ms[0]) && ms[..1] == [ms[0]];
    }
    BystandersArePaired(ms[..h]);
    assert ms[..h] + ms[h..] == ms && ms[..c] == ms[..h] + ms[h..c];
    PairedAppend(ms[..h], ms[h..c]);
    BystandersArePaired([summary]);
    PairedAppend(ms[..h], [summary]);
    PairedAppend(ms[..h] + [summary], ms[c..]);
  }

  // ---------------------------------------------------------------------------------------------
  // Token estimates

  /** What the estimates take from outside: the context window of the model, the length of serialized
      tool calls, and the text that stands in for a compacted message. */
  datatype Env = Env(window: nat, jsonLength: seq<ToolCall> -> nat, summary: ContextMessage -> string)

  const IMAGE_TOKENS := 1000

  /** ceil(length / 3.5) */
  function EstimateTokens(length: nat): nat {
    (2 * length + 6) / 7
  }

  function TextLength(parts: seq<Part>): nat {
    if parts == [] then 0
    else (if parts[0].TextPart? then |parts[0].text| else 0) + TextLength(parts[1..])
  }

  function ImageCount(parts: seq<Part>): nat {
    if parts == [] then 0
    else (if parts[0].ImagePart? then 1 else 0) + ImageCount(parts[1..])
  }

  function ContentTokens(c: Content): nat {
    match c
    case NoContent => 0
    case Text(text) => EstimateTokens(|text|)
    case Parts(parts) => EstimateTokens(TextLength(parts)) + ImageCount(parts) * IMAGE_TOKENS
  }

  function CallTokens(env: Env, m: ContextMessage): nat {
    if m.toolCalls == [] then 0 else EstimateTokens(env.jsonLength(m.toolCalls))
  }

  function EstimateMessageTokens(env: Env, m: ContextMessage): nat {
    ContentTokens(m.content) + CallTokens(env, m)
  }

  function TotalTokens(env: Env, ms: seq<ContextMessage>): nat {
    if ms == [] then 0 else EstimateMessageTokens(env, ms[0]) + TotalTokens(env, ms[1..])
  }

  predicate ShouldCompact(env: Env, ms: seq<ContextMessage>, targetRatio: real) {
    TotalTokens(env, ms) as real > env.window as real * targetRatio
  }

  lemma {:induction false} TotalAfterUpdate(env: Env, ms: seq<ContextMessage>, i: nat, m: ContextMessage)
    requires i < |ms|
    ensures TotalTokens(env, ms[i := m])
         == TotalTokens(env, ms) - EstimateMessageTokens(env, ms[i]) + EstimateMessageTokens(env, m)
  {
    if i == 0 {
      assert ms[0 := m][1..] == ms[1..];
    } else {
      TotalAfterUpdate(env, ms[1..], i - 1, m);
      assert ms[i := m][1..] == ms[1..][i - 1 := m];
    }
  }

  // ---------------------------------------------------------------------------------------------
  // Which messages go first

  function ScoreMessage(env: Env, m: ContextMessage, index: nat, total: nat): int {
    var recency := if 5 * index > 4 * total then 100 else if 2 * index > total then 50 else 0;
    var byRole := if m.role == System then 1000 else if m.role == User then 80 else 0;
    var byTool :=
      if m.toolName == Some("read_file") then -20
      else if m.toolName == Some("run_lint") || m.toolName == Some("run_tests") then 60
      else if m.toolName == Some("edit_file") then 40
      else 0;
    var tokens := EstimateMessageTokens(env, m);
    var bySize := (if tokens > 2000 then -30 else 0) + (if tokens > 5000 then -60 else 0);
    recency + byRole + byTool + bySize
  }

  function Scores(env: Env, ms: seq<ContextMessage>): (s: seq<int>)
    ensures |s| == |ms|
  {
    seq(|ms|, i requires 0 <= i < |ms| => ScoreMessage(env, ms[i], i, |ms|))
  }

  /** Index `a` is compacted before index `b`: lower score first, the older one on a tie. */
  predicate Before(scores: seq<int>, a: nat, b: nat)
    requires a < |scores| && b < |scores|
  {
    scores[a] < scores[b] || (scores[a] == scores[b] && a < b)
  }

  function InsertIndex(scores: seq<int>, order: seq<nat>, i: nat): seq<nat>
    requires i < |scores| && forall k | 0 <= k < |order| :: order[k] < |scores|
  {
    if order == [] || Before(scores, i, order[0]) then [i] + order
    else [order[0]] + InsertIndex(scores, order[1..], i)
  }

  /** The indices below `n` in the order a stable sort by score puts them. */
  function SortedIndices(scores: seq<int>, n: nat): (order: seq<nat>)
    requires n <= |scores|
    ensures |order| == n && forall i :: i in order <==> 0 <= i < n
    ensures Ascending(scores, order)
  {
    if n == 0 then []
    else
      InsertSorts(scores, SortedIndices(scores, n - 1), n - 1);
      InsertIndex(scores, SortedIndices(scores, n - 1), n - 1)
  }

  ghost predicate Ascending(scores: seq<int>, order: seq<nat>) {
    (forall k | 0 <= k < |order| :: order[k] < |scores|) &&
    (forall j, k | 0 <= j < k < |order| :: Before(scores, order[j], order[k]))
  }

  lemma {:induction false} InsertSorts(scores: seq<int>, order: seq<nat>, i: nat)
    requires Ascending(scores, order) && i < |scores| && i !in order
    ensures var r := InsertIndex(scores, order, i);
            && |r| == |order| + 1
            && (forall x :: x in r <==> x == i || x in order)
            && Ascending(scores, r)
  {
    if order != [] && !Before(scores, i, order[0]) {
      assert order[0] in order;
      assert Before(scores, order[0], i);
      InsertSorts(scores, order[1..], i);
      var tail := InsertIndex(scores, order[1..], i);
      forall k | 0 <= k < |tail|
        ensures Before(scores, order[0], tail[k])
      {
        assert tail[k] in tail;
        if tail[k] != i {
          var j :| 0 <= j < |order[1..]| && order[1..][j] == tail[k];
          assert order[j + 1] == tail[k];
        }
      }
    }
  }

  // ---------------------------------------------------------------------------------------------
  // compactMessages

  function Compacted(env: Env, m: ContextMessage): ContextMessage {
    m.(content := Text(env.summary(m)))
  }

  predicate Within(order: seq<nat>, n: nat) {
    forall k | 0 <= k < |order| :: order[k] < n
  }

  function Gain(env: Env, m: ContextMessage): int {
    if m.role == System then 0 else EstimateMessageTokens(env, m) - EstimateTokens(|env.summary(m)|)
  }

  /** What the compaction loop has taken off the token count after visiting the first `k` of `order`. */
  function Gains(env: Env, ms: seq<ContextMessage>, order: seq<nat>, k: nat): int
    requires Within(order, |ms|) && k <= |order|
  {
    if k == 0 then 0 else Gains(env, ms, order, k - 1) + Gain(env, ms[order[k - 1]])
  }

  /** Where in `order` the compaction loop stops, standing at `k` with `current` tokens. */
  function Stop(env: Env, ms: seq<ContextMessage>, order: seq<nat>, k: nat, current: int, target: real): (n: nat)
    requires Within(order, |ms|) && k <= |order|
    ensures k <= n <= |order|
    decreases |order| - k
  {
    if k == |order| || current as real <= target then k
    else Stop(env, ms, order, k + 1, current - Gain(env, ms[order[k]]), target)
  }

  /** The history with the non-system messages at the indices in `visited` compacted. */
  function CompactAt(env: Env, ms: seq<ContextMessage>, visited: set<nat>): (r: seq<ContextMessage>)
    ensures |r| == |ms|
  {
    seq(|ms|, i requires 0 <= i < |ms| =>
      if i in visited && ms[i].role != System then Compacted(env, ms[i]) else ms[i])
  }

  function Visited(order: seq<nat>, k: nat): set<nat>
    requires k <= |order|
  {
    set i | i in order[..k]
  }

  function CompactionOrder(env: Env, ms: seq<ContextMessage>, preserveLastN: nat): (order: seq<nat>)
    ensures forall i :: i in order <==> 0 <= i < |ms| - preserveLastN
  {
    SortedIndices(Scores(env, Candidates(ms, preserveLastN)), |Candidates(ms, preserveLastN)|)
  }

  function TargetTokens(env: Env, ratio: real): real {
    env.window as real * ratio
  }

  /** How many candidates compaction visits before the count is down to `target`. */
  function CompactionVisits(env: Env, ms: seq<ContextMessage>, target: real, preserveLastN: nat): (k: nat)
    ensures k <= |CompactionOrder(env, ms, preserveLastN)|
  {
    Stop(env, ms, CompactionOrder(env, ms, preserveLastN), 0, TotalTokens(env, ms), target)
  }

  /** The messages compactMessages returns. */
  function CompactedMessages(env: Env, ms: seq<ContextMessage>, target: real, preserveLastN: nat): seq<ContextMessage> {
    CompactAt(env, ms, Visited(CompactionOrder(env, ms, preserveLastN), CompactionVisits(env, ms, target, preserveLastN)))
  }

  /** The token count compactMessages reports. */
  function ReportedTokens(env: Env, ms: seq<ContextMessage>, target: real, preserveLastN: nat): int {
    TotalTokens(env, ms)
    - Gains(env, ms, CompactionOrder(env, ms, preserveLastN), CompactionVisits(env, ms, target, preserveLastN))
  }

  method CompactMessages(env: Env, messages: seq<ContextMessage>, minRatio: real, preserveLastN: nat)
    returns (out: seq<ContextMessage>, tokensAfter: int)
    ensures out == CompactedMessages(env, messages, TargetTokens(env, minRatio), preserveLastN)
    ensures tokensAfter == ReportedTokens(env, messages, TargetTokens(env, minRatio), preserveLastN)
  {
    var target := TargetTokens(env, minRatio);
    var current := TotalTokens(env, messages);
    if current as real <= target {
      CompactNothing(env, messages, CompactionOrder(env, messages, preserveLastN));
      return messages, current;
    }
    out, tokensAfter := CompactInOrder(env, messages, CompactionOrder(env, messages, preserveLastN), current, target);
  }

  lemma CompactNothing(env: Env, ms: seq<ContextMessage>, order: seq<nat>)
    ensures CompactAt(env, ms, Visited(order, 0)) == ms
  {
  }

  method CompactInOrder(env: Env, messages: seq<ContextMessage>, order: seq<nat>, total: int, target: real)
    returns (out: seq<ContextMessage>, current: int)
    requires Within(order, |messages|)
    ensures out == CompactAt(env, messages, Visited(order, Stop(env, messages, order, 0, total, target)))
    ensures current == total - Gains(env, messages, order, Stop(env, messages, order, 0, total, target))
  {
    out, current := messages, total;
    CompactNothing(env, messages, order);
    var k := 0;
    ghost var stop := Stop(env, messages, order, k, current, target);
    while k < |order| && current as real > target
      invariant 0 <= k <= |order|
      invariant out == CompactAt(env, messages, Visited(order, k))
      invariant current == total - Gains(env, messages, order, k)
      invariant Stop(env, messages, order, k, current, target) == stop
    {
      out, current := CompactNext(env, messages, order, k, out, current);
      k := k + 1;
    }
  }

  /** One round: the next message in order gives way to its summary unless it is a system message. */
  method CompactNext(env: Env, messages: seq<ContextMessage>, order: seq<nat>, k: nat, out: seq<ContextMessage>, current: int)
    returns (out': seq<ContextMessage>, current': int)
    requires k < |order| && Within(order, |messages|) && out == CompactAt(env, messages, Visited(order, k))
    ensures out' == CompactAt(env, messages, Visited(order, k + 1))
    ensures current' == current - Gain(env, messages[order[k]])
  {
    out', current' := out, current;
    var m := messages[order[k]];
    CompactOneMore(env, messages, order, k);
    if m.role != System {
      var summary := env.summary(m);
      out' := out[order[k] := m.(content := Text(summary))];
      current' := current - (EstimateMessageTokens(env, m) - EstimateTokens(|summary|));
    }
  }

  lemma CompactOneMore(env: Env, ms: seq<ContextMessage>, order: seq<nat>, k: nat)
    requires k < |order| && Within(order, |ms|)
    ensures CompactAt(env, ms, Visited(order, k + 1))
         == if ms[order[k]].role == System then CompactAt(env, ms, Visited(order, k))
            else CompactAt(env, ms, Visited(order, k))[order[k] := Compacted(env, ms[order[k]])]
  {
    assert order[..k + 1] == order[..k] + [order[k]];
    assert Visited(order, k + 1) == Visited(order, k) + {order[k]};
  }

  /** Calls and answers, roles and system messages survive compaction. */
  lemma CompactionKeepsShape(env: Env, ms: seq<ContextMessage>, visited: set<nat>)
    ensures SameShape(ms, CompactAt(env, ms, visited))
    ensures WellPaired(ms) <==> WellPaired(CompactAt(env, ms, visited))
    ensures forall i | 0 <= i < |ms| && ms[i].role == System :: CompactAt(env, ms, visited)[i] == ms[i]
  {
    OwedByShape(ms, CompactAt(env, ms, visited), []);
  }

  /** The last messages survive it unchanged. */
  lemma LastMessagesStay(env: Env, ms: seq<ContextMessage>, target: real, preserveLastN: nat, i: nat)
    requires i < |ms| && |ms| - preserveLastN <= i
    ensures CompactedMessages(env, ms, target, preserveLastN)[i] == ms[i]
  {
    var order, k := CompactionOrder(env, ms, preserveLastN), CompactionVisits(env, ms, target, preserveLastN);
    assert i !in order;
    assert forall x :: x in order[..k] ==> x in order;
  }

  /** Tool-call tokens of the messages compacted by visiting the first `k` of `order`. */
  function UncountedTokens(env: Env, ms: seq<ContextMessage>, order: seq<nat>, k: nat): nat
    requires Within(order, |ms|) && k <= |order|
  {
    if k == 0 then 0
    else
      var m := ms[order[k - 1]];
      UncountedTokens(env, ms, order, k - 1) + if m.role == System then 0 else CallTokens(env, m)
  }

  ghost predicate Distinct(order: seq<nat>) { forall a, b | 0 <= a < b < |order| :: order[a] != order[b] }

  lemma {:induction false} TrueTotal(env: Env, ms: seq<ContextMessage>, order: seq<nat>, k: nat)
    requires k <= |order| && Within(order, |ms|)
    requires Distinct(order)
    ensures TotalTokens(env, CompactAt(env, ms, Visited(order, k)))
         == TotalTokens(env, ms) - Gains(env, ms, order, k) + UncountedTokens(env, ms, order, k)
  {
    if k == 0 {
      CompactNothing(env, ms, order);
    } else {
      var j := k - 1;
      TrueTotal(env, ms, order, j);
      TotalOfOneMore(env, ms, order, j);
      assert Gains(env, ms, order, k) == Gains(env, ms, order, j) + Gain(env, ms[order[j]]);
    }
  }

  lemma TotalOfOneMore(env: Env, ms: seq<ContextMessage>, order: seq<nat>, k: nat)
    requires k < |order| && Within(order, |ms|)
    requires Distinct(order)
    ensures TotalTokens(env, CompactAt(env, ms, Visited(order, k + 1)))
         == TotalTokens(env, CompactAt(env, ms, Visited(order, k))) - Gain(env, ms[order[k]])
            + (if ms[order[k]].role == System then 0 else CallTokens(env, ms[order[k]]))
  {
    CompactOneMore(env, ms, order, k);
    NotYetVisited(order, k);
    TotalAfterUpdate(env, CompactAt(env, ms, Visited(order, k)), order[k], Compacted(env, ms[order[k]]));
  }

  lemma NotYetVisited(order: seq<nat>, k: nat)
    requires k < |order| && Distinct(order)
    ensures order[k] !in Visited(order, k)
  {
  }

  lemma {:induction false} UncountedNothing(env: Env, ms: seq<ContextMessage>, order: seq<nat>, k: nat)
    requires Within(order, |ms|) && k <= |order|
    ensures UncountedTokens(env, ms, order, k) == 0 <==>
            forall j | 0 <= j < k && ms[order[j]].role != System :: CallTokens(env, ms[order[j]]) == 0
  {
    if k > 0 {
      UncountedNothing(env, ms, order, k - 1);
    }
  }

  /** The reported token count undercounts by exactly the tool-call tokens of the compacted messages:
      it is the true estimate if and only if none of them carries any. */
  lemma CompactionAccounting(env: Env, ms: seq<ContextMessage>, target: real, preserveLastN: nat)
    ensures TotalTokens(env, CompactedMessages(env, ms, target, preserveLastN))
         == ReportedTokens(env, ms, target, preserveLastN)
            + UncountedTokens(env, ms, CompactionOrder(env, ms, preserveLastN), CompactionVisits(env, ms, target, preserveLastN))
    ensures (TotalTokens(env, CompactedMessages(env, ms, target, preserveLastN))
             == ReportedTokens(env, ms, target, preserveLastN)) <==>
            forall j | 0 <= j < CompactionVisits(env, ms, target, preserveLastN) ::
              var m := ms[CompactionOrder(env, ms, preserveLastN)[j]];
              m.role == System || CallTokens(env, m) == 0
  {
    var order := CompactionOrder(env, ms, preserveLastN);
    var k := CompactionVisits(env, ms, target, preserveLastN);
    OrderIsSorted(env, ms, preserveLastN);
    TrueTotal(env, ms, order, k);
    UncountedNothing(env, ms, order, k);
  }

  /** Candidates for compaction, without the last `preserveLastN` messages. */
  function Candidates(ms: seq<ContextMessage>, preserveLastN: nat): seq<ContextMessage> {
    if preserveLastN >= |ms| then [] else ms[..|ms| - preserveLastN]
  }

  lemma OrderIsSorted(env: Env, ms: seq<ContextMessage>, preserveLastN: nat)
    ensures |CompactionOrder(env, ms, preserveLastN)| == |Candidates(ms, preserveLastN)|
    ensures Ascending(Scores(env, Candidates(ms, preserveLastN)), CompactionOrder(env, ms, preserveLastN))
    ensures Distinct(CompactionOrder(env, ms, preserveLastN))
  {
    var order := CompactionOrder(env, ms, preserveLastN);
    var scores := Scores(env, Candidates(ms, preserveLastN));
    forall a, b | 0 <= a < b < |order|
      ensures order[a] != order[b]
    {
      assert Before(scores, order[a], order[b]);
    }
  }

  /** Compaction visits the candidates lowest score first (ties: oldest first), rewrites the ones it
      visits other than system messages, and nothing else. */
  lemma CompactionIsLowestFirst(env: Env, ms: seq<ContextMessage>, k: nat, preserveLastN: nat)
    requires k <= |CompactionOrder(env, ms, preserveLastN)|
    ensures Ascending(Scores(env, Candidates(ms, preserveLastN)), CompactionOrder(env, ms, preserveLastN))
    ensures forall i | 0 <= i < |ms| ::
              CompactAt(env, ms, Visited(CompactionOrder(env, ms, preserveLastN), k))[i] ==
              (if i in CompactionOrder(env, ms, preserveLastN)[..k] && ms[i].role != System
               then ms[i].(content := Text(env.summary(ms[i]))) else ms[i])
  {
    OrderIsSorted(env, ms, preserveLastN);
  }

  /** Compaction goes on exactly while the running count is above the target. */
  lemma CompactionStopsAtTarget(env: Env, ms: seq<ContextMessage>, target: real, preserveLastN: nat)
    ensures forall j | 0 <= j < CompactionVisits(env, ms, target, preserveLastN) ::
              (TotalTokens(env, ms) - Gains(env, ms, CompactionOrder(env, ms, preserveLastN), j)) as real > target
    ensures CompactionVisits(env, ms, target, preserveLastN) < |CompactionOrder(env, ms, preserveLastN)| ==>
              ReportedTokens(env, ms, target, preserveLastN) as real <= target
  {
    var order, total, k := CompactionOrder(env, ms, preserveLastN), TotalTokens(env, ms), 0;
    StopsAtTarget(env, ms, order, k, total, total, target, CompactionVisits(env, ms, target, preserveLastN));
  }

  lemma {:induction false} StopsAtTarget(
    env: Env, ms: seq<ContextMessage>, order: seq<nat>, k: nat, total: int, current: int, target: real, n: nat)
    requires Within(order, |ms|) && k <= |order|
    requires current == total - Gains(env, ms, order, k) && n == Stop(env, ms, order, k, current, target)
    ensures forall j | k <= j < n :: (total - Gains(env, ms, order, j)) as real > target
    ensures n < |order| ==> (total - Gains(env, ms, order, n)) as real <= target
    decreases |order| - k
  {
    if k < |order| && current as real > target {
      StopsAtTarget(env, ms, order, k + 1, total, current - Gain(env, ms[order[k]]), target, n);
    }
  }

  /** The count is still above the target when the candidate at `k` in the order has its turn. */
  ghost predicate AboveUpTo(env: Env, ms: seq<ContextMessage>, order: seq<nat>, k: nat, total: int, target: real)
    requires Within(order, |ms|) && k < |order|
  {
    forall j | 0 <= j <= k :: (total - Gains(env, ms, order, j)) as real > target
  }

  /** Message `i` has its turn: what compacting the lower-ranked candidates takes off never brings the count
      down to the target before that. */
  ghost predicate HasItsTurn(env: Env, ms: seq<ContextMessage>, target: real, preserveLastN: nat, i: nat) {
    HasTurnIn(env, ms, CompactionOrder(env, ms, preserveLastN), TotalTokens(env, ms), target, i)
  }

  ghost predicate HasTurnIn(env: Env, ms: seq<ContextMessage>, order: seq<nat>, total: int, target: real, i: nat)
    requires Within(order, |ms|)
  {
    exists k :: 0 <= k < |order| && order[k] == i && AboveUpTo(env, ms, order, k, total, target)
  }

  lemma VisitedInTurn(env: Env, ms: seq<ContextMessage>, order: seq<nat>, n: nat, total: int, target: real, i: nat)
    requires Within(order, |ms|) && n <= |order|
    requires forall j | 0 <= j < n :: (total - Gains(env, ms, order, j)) as real > target
    requires n < |order| ==> (total - Gains(env, ms, order, n)) as real <= target
    ensures i in Visited(order, n) <==> HasTurnIn(env, ms, order, total, target, i)
  {
    if i in Visited(order, n) {
      var k :| 0 <= k < n && order[..n][k] == i;
      assert order[k] == i && AboveUpTo(env, ms, order, k, total, target);
    }
    if HasTurnIn(env, ms, order, total, target, i) {
      var k :| 0 <= k < |order| && order[k] == i && AboveUpTo(env, ms, order, k, total, target);
      assert k < n;
      assert order[..n][k] == i;
    }
  }

  /** Compaction changes a message exactly when it has its turn, is no system message, and does not read
      like its placeholder already. */
  lemma CompactionChangesIff(env: Env, ms: seq<ContextMessage>, target: real, preserveLastN: nat, i: nat)
    requires i < |ms|
    ensures CompactedMessages(env, ms, target, preserveLastN)[i] != ms[i] <==>
            HasItsTurn(env, ms, target, preserveLastN, i) && ms[i].role != System && ms[i].content != Text(env.summary(ms[i]))
  {
    CompactionStopsAtTarget(env, ms, target, preserveLastN);
    VisitedInTurn(env, ms, CompactionOrder(env, ms, preserveLastN), CompactionVisits(env, ms, target, preserveLastN),
                  TotalTokens(env, ms), target, i);
  }
}
