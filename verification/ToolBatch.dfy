/** One batch of tool calls: what each call's tool message says, and when. */
module ToolBatch {
  import opened Options
  import opened Conversation

  const PARALLEL_SAFE_TOOLS := {
    "read_file", "list_files", "glob_files", "grep_files", "web_search", "fetch_url",
    "view_image", "query_data", "review_changes", "load_skill", "job_output", "list_jobs"
  }

  /** How one tool call came out: answered without running (bad arguments, unavailable, refused by plan
      mode, guard, rule, user or hook, skipped, or an answer of the user), handed to a sub-agent, or run. */
  datatype Outcome =
    | Refused(reply: string)
    | Spawned(report: string)
    | Executed(output: string, image: Option<seq<Part>>)

  function Result(o: Outcome): string {
    match o
    case Refused(reply) => reply
    case Spawned(report) => report
    case Executed(output, _) => output
  }

  function Results(outcomes: seq<Outcome>): (r: seq<string>)
    ensures |r| == |outcomes|
  {
    seq(|outcomes|, i requires 0 <= i < |outcomes| => Result(outcomes[i]))
  }

  function ImageOf(o: Outcome): seq<seq<Part>> {
    if o.Executed? && o.image.Some? then [o.image.value] else []
  }

  /** The images the first `n` calls attach, in call order. */
  function AttachedImages(outcomes: seq<Outcome>, n: nat): seq<seq<Part>>
    requires n <= |outcomes|
  {
    if n == 0 then [] else AttachedImages(outcomes, n - 1) + ImageOf(outcomes[n - 1])
  }

  predicate Parallel(calls: seq<ToolCall>) {
    |calls| > 1 && forall i | 0 <= i < |calls| :: calls[i].name in PARALLEL_SAFE_TOOLS
  }

  /** The call gets an empty placeholder first and its result later. */
  predicate Deferred(o: Outcome, parallel: bool) {
    o.Spawned? || (o.Executed? && parallel)
  }

  /** The text a tool message is pushed with. */
  function FirstText(o: Outcome, parallel: bool): string {
    if Deferred(o, parallel) then "" else Result(o)
  }

  function FirstTexts(outcomes: seq<Outcome>, parallel: bool, n: nat): (r: seq<string>)
    requires n <= |outcomes|
    ensures |r| == n
  {
    seq(n, i requires 0 <= i < n => FirstText(outcomes[i], parallel))
  }

  predicate Wanted(o: Outcome, spawns: bool, parallel: bool) {
    if spawns then o.Spawned? else o.Executed? && parallel
  }

  /** The calls among the first `n` whose results are collected later: sub-agents, or parallel lookups. */
  function Waiting(outcomes: seq<Outcome>, spawns: bool, parallel: bool, n: nat): (r: seq<nat>)
    requires n <= |outcomes|
    ensures forall k | 0 <= k < |r| :: r[k] < n && Wanted(outcomes[r[k]], spawns, parallel)
  {
    if n == 0 then []
    else if Wanted(outcomes[n - 1], spawns, parallel) then Waiting(outcomes, spawns, parallel, n - 1) + [n - 1]
    else Waiting(outcomes, spawns, parallel, n - 1)
  }

  ghost predicate Indices(order: seq<nat>, n: nat) { forall k | 0 <= k < |order| :: order[k] < n }

  /** Reads are collected first, then sub-agents. */
  function Collected(outcomes: seq<Outcome>, parallel: bool): (r: seq<nat>)
    ensures Indices(r, |outcomes|)
  {
    Waiting(outcomes, false, parallel, |outcomes|) + Waiting(outcomes, true, parallel, |outcomes|)
  }

  /** The texts after the first `k` of `order` were filled in. */
  function Filled(texts: seq<string>, outcomes: seq<Outcome>, order: seq<nat>, k: nat): (r: seq<string>)
    requires |texts| == |outcomes| && k <= |order| && Indices(order, |outcomes|)
    ensures |r| == |texts|
  {
    if k == 0 then texts else Filled(texts, outcomes, order, k - 1)[order[k - 1] := Result(outcomes[order[k - 1]])]
  }

  /** A batch passes one moment per call issued, and one per result collected. */
  function Moments(outcomes: seq<Outcome>, parallel: bool): nat { |outcomes| + |Collected(outcomes, parallel)| }

  /** The texts of the tool messages pushed by the given moment. */
  function TextsAt(outcomes: seq<Outcome>, parallel: bool, moment: nat): (r: seq<string>)
    requires moment < Moments(outcomes, parallel)
    ensures |r| <= |outcomes|
  {
    if moment < |outcomes| then FirstTexts(outcomes, parallel, moment)
    else Filled(FirstTexts(outcomes, parallel, |outcomes|), outcomes, Collected(outcomes, parallel), moment - |outcomes|)
  }

  // ---------------------------------------------------------------------------------------------
  // Results in call order

  lemma {:induction false} FilledAt(texts: seq<string>, outcomes: seq<Outcome>, order: seq<nat>, k: nat, j: nat)
    requires |texts| == |outcomes| && k <= |order| && Indices(order, |outcomes|) && j < |texts|
    ensures Filled(texts, outcomes, order, k)[j] == if j in order[..k] then Result(outcomes[j]) else texts[j]
  {
    if k > 0 {
      FilledAt(texts, outcomes, order, k - 1, j);
      assert order[..k] == order[..k - 1] + [order[k - 1]];
    }
  }

  lemma {:induction false} FilledTwice(texts: seq<string>, outcomes: seq<Outcome>, a: seq<nat>, b: seq<nat>, k: nat)
    requires |texts| == |outcomes| && Indices(a, |outcomes|) && Indices(b, |outcomes|) && k <= |a + b|
    ensures Filled(texts, outcomes, a + b, k)
         == if k <= |a| then Filled(texts, outcomes, a, k)
            else Filled(Filled(texts, outcomes, a, |a|), outcomes, b, k - |a|)
  {
    if k > 0 {
      FilledTwice(texts, outcomes, a, b, k - 1);
    }
  }

  lemma {:induction false} WaitingMember(outcomes: seq<Outcome>, spawns: bool, parallel: bool, n: nat, j: nat)
    requires n <= |outcomes|
    ensures j in Waiting(outcomes, spawns, parallel, n) <==> j < n && Wanted(outcomes[j], spawns, parallel)
  {
    if n > 0 {
      WaitingMember(outcomes, spawns, parallel, n - 1, j);
    }
  }

  /** The texts while reads are collected. */
  lemma TextsReading(outcomes: seq<Outcome>, parallel: bool, lookups: seq<nat>, moment: nat)
    requires lookups == Waiting(outcomes, false, parallel, |outcomes|)
    requires |outcomes| <= moment < |outcomes| + |lookups|
    ensures moment < Moments(outcomes, parallel)
    ensures TextsAt(outcomes, parallel, moment)
         == Filled(FirstTexts(outcomes, parallel, |outcomes|), outcomes, lookups, moment - |outcomes|)
  {
    FilledTwice(FirstTexts(outcomes, parallel, |outcomes|), outcomes, lookups, Waiting(outcomes, true, parallel, |outcomes|), moment - |outcomes|);
  }

  /** The texts while the reports of sub-agents are. */
  lemma TextsReporting(outcomes: seq<Outcome>, parallel: bool, lookups: seq<nat>, reports: seq<nat>, moment: nat)
    requires lookups == Waiting(outcomes, false, parallel, |outcomes|) && reports == Waiting(outcomes, true, parallel, |outcomes|)
    requires |outcomes| + |lookups| <= moment < Moments(outcomes, parallel)
    ensures TextsAt(outcomes, parallel, moment)
         == Filled(Filled(FirstTexts(outcomes, parallel, |outcomes|), outcomes, lookups, |lookups|), outcomes, reports, moment - |outcomes| - |lookups|)
  {
    FilledTwice(FirstTexts(outcomes, parallel, |outcomes|), outcomes, lookups, reports, moment - |outcomes|);
  }

  /** Once everything is collected, every call has its own result. */
  lemma AllCollected(outcomes: seq<Outcome>, parallel: bool, lookups: seq<nat>, reports: seq<nat>, firsts: seq<string>, read: seq<string>)
    requires lookups == Waiting(outcomes, false, parallel, |outcomes|) && reports == Waiting(outcomes, true, parallel, |outcomes|)
    requires firsts == FirstTexts(outcomes, parallel, |outcomes|) && read == Filled(firsts, outcomes, lookups, |lookups|)
    ensures Filled(read, outcomes, reports, |reports|) == Results(outcomes)
  {
    var r := Filled(read, outcomes, reports, |reports|);
    assert lookups[..|lookups|] == lookups && reports[..|reports|] == reports;
    forall j | 0 <= j < |outcomes|
      ensures r[j] == Result(outcomes[j])
    {
      FilledAt(read, outcomes, reports, |reports|, j);
      FilledAt(firsts, outcomes, lookups, |lookups|, j);
      WaitingMember(outcomes, false, parallel, |outcomes|, j);
      WaitingMember(outcomes, true, parallel, |outcomes|, j);
    }
  }

  // ---------------------------------------------------------------------------------------------
  // Images in call order

  /** The images attached while the first `k` results of `order` are collected. */
  function ImagesAlong(outcomes: seq<Outcome>, order: seq<nat>, k: nat): seq<seq<Part>>
    requires k <= |order| && Indices(order, |outcomes|)
  {
    if k == 0 then [] else ImagesAlong(outcomes, order, k - 1) + ImageOf(outcomes[order[k - 1]])
  }

  lemma {:induction false} ImagesAlongFront(outcomes: seq<Outcome>, order: seq<nat>, i: nat, k: nat)
    requires k <= |order| && Indices(order, |outcomes|) && i < |outcomes|
    ensures ImagesAlong(outcomes, order + [i], k) == ImagesAlong(outcomes, order, k)
  {
    if k > 0 {
      ImagesAlongFront(outcomes, order, i, k - 1);
    }
  }

  lemma ImagesOfOneMore(outcomes: seq<Outcome>, order: seq<nat>, i: nat)
    requires Indices(order, |outcomes|) && i < |outcomes|
    ensures ImagesAlong(outcomes, order + [i], |order| + 1) == ImagesAlong(outcomes, order, |order|) + ImageOf(outcomes[i])
  {
    ImagesAlongFront(outcomes, order, i, |order|);
  }

  /** Collecting reports attaches no images. */
  lemma {:induction false} ReportsHaveNoImages(outcomes: seq<Outcome>, order: seq<nat>, k: nat)
    requires k <= |order| && Indices(order, |outcomes|) && forall i | 0 <= i < |order| :: outcomes[order[i]].Spawned?
    ensures ImagesAlong(outcomes, order, k) == []
  {
    if k > 0 {
      ReportsHaveNoImages(outcomes, order, k - 1);
      assert ImageOf(outcomes[order[k - 1]]) == [];
    }
  }

  /** A parallel batch attaches its images in call order too. */
  lemma {:induction false} ImagesOfReads(outcomes: seq<Outcome>, n: nat, order: seq<nat>)
    requires n <= |outcomes| && order == Waiting(outcomes, false, true, n)
    ensures ImagesAlong(outcomes, order, |order|) == AttachedImages(outcomes, n)
  {
    if n > 0 {
      var front := Waiting(outcomes, false, true, n - 1);
      ImagesOfReads(outcomes, n - 1, front);
      if Wanted(outcomes[n - 1], false, true) {
        ImagesOfOneMore(outcomes, front, n - 1);
      } else {
        assert ImageOf(outcomes[n - 1]) == [];
      }
    }
  }

  lemma {:induction false} NothingWaits(outcomes: seq<Outcome>, n: nat)
    requires n <= |outcomes|
    ensures Waiting(outcomes, false, false, n) == []
  {
    if n > 0 {
      NothingWaits(outcomes, n - 1);
    }
  }

  lemma ImagesInCallOrder(outcomes: seq<Outcome>, spawns: bool, parallel: bool, order: seq<nat>)
    requires order == Waiting(outcomes, spawns, parallel, |outcomes|)
    ensures ImagesAlong(outcomes, order, |order|) == if spawns || !parallel then [] else AttachedImages(outcomes, |outcomes|)
  {
    if spawns {
      ReportsHaveNoImages(outcomes, order, |order|);
    } else if parallel {
      ImagesOfReads(outcomes, |outcomes|, order);
    } else {
      NothingWaits(outcomes, |outcomes|);
    }
  }

  /** Images attached at once or while collecting: all of them, in call order. */
  lemma AttachedInCallOrder(outcomes: seq<Outcome>, parallel: bool, attached: seq<seq<Part>>, lookups: seq<nat>, reports: seq<nat>)
    requires lookups == Waiting(outcomes, false, parallel, |outcomes|) && reports == Waiting(outcomes, true, parallel, |outcomes|)
    requires attached == if parallel then [] else AttachedImages(outcomes, |outcomes|)
    ensures attached + ImagesAlong(outcomes, lookups, |lookups|) + ImagesAlong(outcomes, reports, |reports|)
         == AttachedImages(outcomes, |outcomes|)
  {
    ImagesInCallOrder(outcomes, false, parallel, lookups);
    ImagesInCallOrder(outcomes, true, parallel, reports);
    OneOfThree(attached, ImagesAlong(outcomes, lookups, |lookups|), ImagesAlong(outcomes, reports, |reports|), AttachedImages(outcomes, |outcomes|));
  }

  lemma OneOfThree<T>(a: seq<T>, b: seq<T>, c: seq<T>, s: seq<T>)
    requires c == [] && ((a == s && b == []) || (a == [] && b == s))
    ensures a + b + c == s
  {
  }
}
