/** Searching a token tree for a pattern, and rewriting the places found. */
module StructuralSearch {
  import opened Sequences
  import opened Tokenizer
  import opened TokenTree
  import opened Matcher
  import opened MatchMeaning

  datatype MatchResult = MatchResult(start: nat, end: nat, startLine: nat, endLine: nat, text: string, bindings: Bindings)

  /** What is reported for a pattern tried at the front of `nodes`. */
  function ReportAt(pattern: seq<Token>, nodes: seq<Token>, code: string): seq<MatchResult> {
    var m := MatchSeq(pattern, nodes, code, map[]);
    if m.NoMatch? || m.consumed == 0 then []
    else
      var first, last := nodes[0], nodes[m.consumed - 1];
      [MatchResult(first.start, last.end, first.line, last.line, Slice(code, first.start, last.end), m.bindings)]
  }

  /** All matches, in the order the walk meets them: a node, then its children, then what follows it. */
  function Found(pattern: seq<Token>, nodes: seq<Token>, code: string): seq<MatchResult> {
    if nodes == [] then []
    else if nodes[0].kind != Group then ReportAt(pattern, nodes, code) + Found(pattern, nodes[1..], code)
    else ReportAt(pattern, nodes, code) + Found(pattern, nodes[0].children, code) + Found(pattern, nodes[1..], code)
  }

  /** One position of the walk: the pattern tried at the front of `nodes`. */
  method TryAt(pattern: seq<Token>, nodes: seq<Token>, code: string) returns (found: seq<MatchResult>)
    ensures found == ReportAt(pattern, nodes, code)
  {
    var r := MatchSequence(pattern, nodes, code, map[]);
    if !r.matched || r.consumed == 0 {
      return [];
    }
    var slice := nodes[..r.consumed];
    var start, end := slice[0].start, slice[|slice| - 1].end;
    return [MatchResult(start, end, slice[0].line, slice[|slice| - 1].line, Slice(code, start, end), r.bindings)];
  }

  method Walk(pattern: seq<Token>, nodeList: seq<Token>, code: string, matches: seq<MatchResult>)
    returns (all: seq<MatchResult>)
    ensures all == matches + Found(pattern, nodeList, code)
    decreases nodeList
  {
    all := matches;
    ghost var goal := matches + Found(pattern, nodeList, code);
    assert nodeList[0..] == nodeList;
    for i := 0 to |nodeList|
      invariant all + Found(pattern, nodeList[i..], code) == goal
    {
      FoundAt(pattern, nodeList, i, code, all);
      var own := TryAt(pattern, nodeList[i..], code);
      all := all + own;
      if nodeList[i].kind == Group {
        all := Walk(pattern, nodeList[i].children, code, all);
      }
    }
    assert nodeList[|nodeList|..] == [];
  }

  lemma FoundAt(pattern: seq<Token>, nodes: seq<Token>, i: nat, code: string, before: seq<MatchResult>)
    requires i < |nodes|
    ensures nodes[i].kind == Group ==>
              before + Found(pattern, nodes[i..], code) ==
              before + ReportAt(pattern, nodes[i..], code) + Found(pattern, nodes[i].children, code) + Found(pattern, nodes[i + 1..], code)
    ensures nodes[i].kind != Group ==>
              before + Found(pattern, nodes[i..], code) ==
              before + ReportAt(pattern, nodes[i..], code) + Found(pattern, nodes[i + 1..], code)
  {
    assert nodes[i..][1..] == nodes[i + 1..];
    var own, rest := ReportAt(pattern, nodes[i..], code), Found(pattern, nodes[i + 1..], code);
    if nodes[i].kind == Group {
      Associate(before, own + Found(pattern, nodes[i].children, code), rest);
      Associate(before, own, Found(pattern, nodes[i].children, code));
    } else {
      Associate(before, own, rest);
    }
  }

  method SearchInTokens(pattern: seq<Token>, target: seq<Token>, code: string) returns (matches: seq<MatchResult>)
    ensures matches == Found(pattern, target, code)
  {
    matches := Walk(pattern, target, code, []);
  }

  /** `nodes` is what follows some position of the tree on its level, that position included. */
  ghost predicate Site(tree: seq<Token>, nodes: seq<Token>) {
    tree != [] && (nodes == tree || (tree[0].kind == Group && Site(tree[0].children, nodes)) || Site(tree[1..], nodes))
  }

  /** The search reports exactly the matches at the positions of the tree, at every depth. */
  lemma {:induction false} FoundIffSite(pattern: seq<Token>, tree: seq<Token>, code: string, r: MatchResult)
    ensures r in Found(pattern, tree, code) <==> exists nodes :: Site(tree, nodes) && r in ReportAt(pattern, nodes, code)
  {
    if tree != [] {
      FoundIffSite(pattern, tree[1..], code, r);
      if tree[0].kind == Group {
        FoundIffSite(pattern, tree[0].children, code, r);
      }
      if r in ReportAt(pattern, tree, code) {
        assert Site(tree, tree);
      } else if tree[0].kind == Group && r in Found(pattern, tree[0].children, code) {
        var nodes :| Site(tree[0].children, nodes) && r in ReportAt(pattern, nodes, code);
        assert Site(tree, nodes);
      } else if r in Found(pattern, tree[1..], code) {
        var nodes :| Site(tree[1..], nodes) && r in ReportAt(pattern, nodes, code);
        assert Site(tree, nodes);
      }
    }
  }

  // ---------------------------------------------------------------------------------------------
  // Patterns read from text

  ghost predicate AllNamed(forest: seq<Token>) {
    forest == [] || (Named(forest[0]) && AllNamed(forest[0].children) && AllNamed(forest[1..]))
  }

  lemma {:induction false} AllNamedAppend(a: seq<Token>, b: seq<Token>)
    ensures AllNamed(a + b) <==> AllNamed(a) && AllNamed(b)
  {
    if a == [] {
      assert a + b == b;
    } else {
      AllNamedAppend(a[1..], b);
      assert (a + b)[1..] == a[1..] + b;
    }
  }

  predicate IsMultiName(v: string) { |v| >= 2 && v[..2] == "$$" }

  lemma {:induction false} NamesByKind(pattern: seq<Token>, v: string)
    requires AllNamed(pattern)
    ensures Mentions(pattern, v) ==> !IsMultiName(v)
    ensures Occurrences(pattern, v) > 0 ==> IsMultiName(v)
  {
    if pattern != [] {
      NamesByKind(pattern[0].children, v);
      NamesByKind(pattern[1..], v);
    }
  }

  ghost predicate NamedPartial(p: Partial) {
    AllNamed(p.done) &&
    forall k | 0 <= k < |p.stack| :: Named(p.stack[k].opener) && p.stack[k].opener.children == [] && AllNamed(p.stack[k].children)
  }

  lemma AddNamed(p: Partial, t: Token)
    requires NamedPartial(p) && Named(t) && AllNamed(t.children)
    ensures NamedPartial(Add(p, t))
  {
    assert [t][1..] == [] && AllNamed([t]);
    if p.stack == [] {
      AllNamedAppend(p.done, [t]);
    } else {
      AllNamedAppend(p.stack[|p.stack| - 1].children, [t]);
    }
  }

  lemma StepNamed(p: Partial, t: Token)
    requires NamedPartial(p) && Named(t) && t.children == []
    ensures NamedPartial(TokenTree.Step(p, t))
  {
    if t.kind == Comment || IsOpener(t) {
    } else if Closes(p, t) {
      var n := |p.stack| - 1;
      AddNamed(p.(stack := p.stack[..n]), MakeGroup(p.stack[n].opener, t, p.stack[n].children));
    } else {
      AddNamed(p, t);
    }
  }

  lemma {:induction false} StepsNamed(p: Partial, tokens: seq<Token>)
    requires NamedPartial(p) && forall k | 0 <= k < |tokens| :: Named(tokens[k]) && tokens[k].children == []
    ensures NamedPartial(Steps(p, tokens))
    decreases |tokens|
  {
    if tokens != [] {
      StepNamed(p, tokens[0]);
      StepsNamed(TokenTree.Step(p, tokens[0]), tokens[1..]);
    }
  }

  lemma {:induction false} DrainedNamed(stack: seq<Frame>)
    requires forall k | 0 <= k < |stack| :: Named(stack[k].opener) && stack[k].opener.children == [] && AllNamed(stack[k].children)
    ensures AllNamed(Drained(stack))
  {
    if stack != [] {
      DrainedNamed(stack[1..]);
      assert [stack[0].opener][1..] == [] && AllNamed([stack[0].opener]);
      AllNamedAppend([stack[0].opener], stack[0].children);
      AllNamedAppend([stack[0].opener] + stack[0].children, Drained(stack[1..]));
    }
  }

  /** The tree of a pattern text tells single and sequence metavariables apart. */
  lemma PatternIsApart(text: string)
    ensures Apart(Tree(Lex(text, 0, true)))
  {
    var tokens := Lex(text, 0, true);
    var p := Steps(Partial([], []), tokens);
    LexNamed(text, 0, true);
    StepsNamed(Partial([], []), tokens);
    DrainedNamed(p.stack);
    AllNamedAppend(p.done, Drained(p.stack));
    forall v
      ensures !(Mentions(Tree(tokens), v) && Occurrences(Tree(tokens), v) > 0)
    {
      NamesByKind(Tree(tokens), v);
    }
  }

  /** From text to report: every match the search reports in a source file is, at some position of its
      tree, a run of tokens that is an instance of the pattern under the reported bindings, with every
      sequence metavariable that occurs consistently standing for the text it is bound to. */
  lemma ReportsAreInstances(patternText: string, code: string, r: MatchResult, checked: iset<string>)
    requires AllConsistent(Tree(Lex(patternText, 0, true)), checked)
    requires r in Found(Tree(Lex(patternText, 0, true)), Tree(Lex(code, 0, false)), code)
    ensures exists nodes: seq<Token>, n: nat, captures ::
              && Site(Tree(Lex(code, 0, false)), nodes) && 0 < n <= |nodes|
              && Instance(Tree(Lex(patternText, 0, true)), nodes[..n], code, r.bindings, captures, checked)
              && r.start == nodes[0].start && r.end == nodes[n - 1].end && r.startLine == nodes[0].line && r.endLine == nodes[n - 1].line && r.text == Slice(code, r.start, r.end)
  {
    var pattern, tree := Tree(Lex(patternText, 0, true)), Tree(Lex(code, 0, false));
    PatternIsApart(patternText);
    FoundIffSite(pattern, tree, code, r);
    var nodes :| Site(tree, nodes) && r in ReportAt(pattern, nodes, code);
    var n, captures := ReportIsInstance(pattern, nodes, code, r, checked);
  }

  lemma ReportIsInstance(pattern: seq<Token>, nodes: seq<Token>, code: string, r: MatchResult, checked: iset<string>)
    returns (n: nat, captures: seq<nat>)
    requires Apart(pattern) && AllConsistent(pattern, checked) && r in ReportAt(pattern, nodes, code)
    ensures 0 < n <= |nodes| && Instance(pattern, nodes[..n], code, r.bindings, captures, checked)
    ensures r.start == nodes[0].start && r.end == nodes[n - 1].end && r.startLine == nodes[0].line && r.endLine == nodes[n - 1].line && r.text == Slice(code, r.start, r.end)
  {
    var m := MatchSeq(pattern, nodes, code, map[]);
    MatchIsInstance(pattern, nodes, code, map[], checked);
    n, captures := m.consumed, m.captures;
  }

  // ---------------------------------------------------------------------------------------------
  // Rewriting

  datatype Edit = Edit(start: nat, end: nat, text: string)

  function InsertEdit(sorted: seq<Edit>, e: Edit): (r: seq<Edit>)
    ensures |r| == |sorted| + 1 && forall x :: x in r <==> x == e || x in sorted
  {
    if sorted == [] || e.start > sorted[0].start then [e] + sorted
    else
      assert forall x :: x in sorted <==> x == sorted[0] || x in sorted[1..];
      [sorted[0]] + InsertEdit(sorted[1..], e)
  }

  /** matches.sort((a, b) => b.start - a.start), stable. */
  function SortEdits(edits: seq<Edit>): (r: seq<Edit>)
    ensures |r| == |edits| && forall x :: x in r <==> x in edits
  {
    if edits == [] then []
    else
      var n := |edits| - 1;
      assert forall x :: x in edits <==> x == edits[n] || x in edits[..n];
      InsertEdit(SortEdits(edits[..n]), edits[n])
  }

  function Apply(text: string, e: Edit): string {
    Slice(text, 0, e.start) + e.text + Slice(text, e.end, |text|)
  }

  function ApplyAll(text: string, edits: seq<Edit>): string
    decreases |edits|
  {
    if edits == [] then text else ApplyAll(Apply(text, edits[0]), edits[1..])
  }

  method Splice(content: string, matches: seq<Edit>) returns (modified: string)
    ensures modified == ApplyAll(content, SortEdits(matches))
  {
    var sorted := SortEdits(matches);
    modified := content;
    assert sorted[0..] == sorted;
    for i := 0 to |sorted|
      invariant ApplyAll(modified, sorted[i..]) == ApplyAll(content, sorted)
    {
      assert sorted[i..][0] == sorted[i] && sorted[i..][1..] == sorted[i + 1..];
      modified := Slice(modified, 0, sorted[i].start) + sorted[i].text + Slice(modified, sorted[i].end, |modified|);
    }
  }

  /** All edits at once, for edits given from right to left: `content[..hi]` with each span replaced. */
  function AtOnce(content: string, edits: seq<Edit>, hi: nat): string {
    if edits == [] then Slice(content, 0, hi)
    else AtOnce(content, edits[1..], edits[0].start) + edits[0].text + Slice(content, edits[0].end, hi)
  }

  /** From right to left, the spans lie below `hi` and do not overlap. */
  ghost predicate RightToLeft(edits: seq<Edit>, hi: nat) {
    edits == [] || (edits[0].start < edits[0].end <= hi && RightToLeft(edits[1..], edits[0].start))
  }

  lemma ApplyInside(content: string, e: Edit, hi: nat, tail: string)
    requires e.start < e.end <= hi <= |content| + 1 && (hi > |content| ==> tail == "")
    ensures Apply(Slice(content, 0, hi) + tail, e) == Slice(content, 0, e.start) + (e.text + Slice(content, e.end, hi) + tail)
  {
    var text := Slice(content, 0, hi) + tail;
    assert Slice(text, 0, e.start) == Slice(content, 0, e.start);
    assert Slice(text, e.end, |text|) == Slice(content, e.end, hi) + tail;
  }

  lemma {:induction false} ApplyAllIsAtOnce(content: string, edits: seq<Edit>, hi: nat, tail: string)
    requires hi <= |content| + 1 && (hi > |content| ==> tail == "") && RightToLeft(edits, hi)
    ensures ApplyAll(Slice(content, 0, hi) + tail, edits) == AtOnce(content, edits, hi) + tail
    decreases |edits|
  {
    if edits != [] {
      var e := edits[0];
      ApplyInside(content, e, hi, tail);
      ApplyAllIsAtOnce(content, edits[1..], e.start, e.text + Slice(content, e.end, hi) + tail);
      FourParts(AtOnce(content, edits[1..], e.start), e.text, Slice(content, e.end, hi), tail);
    }
  }

  lemma FourParts(a: string, b: string, c: string, d: string)
    ensures a + (b + c + d) == a + b + c + d
  {
  }

  ghost predicate Disjoint(edits: seq<Edit>, hi: nat) {
    (forall i | 0 <= i < |edits| :: edits[i].start < edits[i].end <= hi) &&
    (forall i, j | 0 <= i < j < |edits| :: edits[i].end <= edits[j].start || edits[j].end <= edits[i].start)
  }

  ghost predicate Descending(edits: seq<Edit>) {
    forall i, j | 0 <= i < j < |edits| :: edits[i].start > edits[j].start
  }

  lemma {:induction false} InsertDescends(sorted: seq<Edit>, e: Edit)
    requires Descending(sorted) && forall i | 0 <= i < |sorted| :: sorted[i].start != e.start
    ensures Descending(InsertEdit(sorted, e))
  {
    if sorted != [] && e.start <= sorted[0].start {
      InsertDescends(sorted[1..], e);
      var tail := InsertEdit(sorted[1..], e);
      forall k | 0 <= k < |tail|
        ensures tail[k].start < sorted[0].start
      {
        assert tail[k] in tail;
        if tail[k] != e {
          var j :| 0 <= j < |sorted[1..]| && sorted[1..][j] == tail[k];
          assert sorted[j + 1] == tail[k];
        }
      }
    }
  }

  lemma {:induction false} SortDescends(edits: seq<Edit>, hi: nat)
    requires Disjoint(edits, hi)
    ensures Descending(SortEdits(edits))
  {
    if edits != [] {
      var n := |edits| - 1;
      SortDescends(edits[..n], hi);
      var sorted := SortEdits(edits[..n]);
      forall i | 0 <= i < |sorted|
        ensures sorted[i].start != edits[n].start
      {
        assert sorted[i] in edits[..n];
        var j :| 0 <= j < n && edits[j] == sorted[i];
      }
      InsertDescends(sorted, edits[n]);
    }
  }

  lemma {:induction false} DescendingIsRightToLeft(edits: seq<Edit>, hi: nat)
    requires Descending(edits)
    requires forall i | 0 <= i < |edits| :: edits[i].start < edits[i].end <= hi
    requires forall i, j | 0 <= i < j < |edits| :: edits[j].end <= edits[i].start
    ensures RightToLeft(edits, hi)
  {
    if edits != [] {
      DescendingIsRightToLeft(edits[1..], edits[0].start);
    }
  }

  lemma SortedInside(edits: seq<Edit>, hi: nat)
    requires Disjoint(edits, hi)
    ensures RightToLeft(SortEdits(edits), hi)
  {
    var sorted := SortEdits(edits);
    SortDescends(edits, hi);
    forall i | 0 <= i < |sorted|
      ensures sorted[i].start < sorted[i].end <= hi
    {
      assert sorted[i] in edits;
    }
    forall i, j | 0 <= i < j < |sorted|
      ensures sorted[j].end <= sorted[i].start
    {
      assert sorted[i] in edits && sorted[j] in edits;
    }
    DescendingIsRightToLeft(sorted, hi);
  }

  /** For pairwise disjoint spans, splicing from right to left is simultaneous substitution; the last one may
      reach one character past the end, as a string that dangles does. */
  lemma SpliceIsSubstitution(content: string, edits: seq<Edit>)
    requires Disjoint(edits, |content| + 1)
    ensures RightToLeft(SortEdits(edits), |content| + 1)
    ensures ApplyAll(content, SortEdits(edits)) == AtOnce(content, SortEdits(edits), |content| + 1)
  {
    SortedInside(edits, |content| + 1);
    var sorted := SortEdits(edits);
    assert Slice(content, 0, |content| + 1) + "" == content;
    ApplyAllIsAtOnce(content, sorted, |content| + 1, "");
  }

  /** Matches that overlap without nesting, as those of `$A $B` on three tokens do: the left rewrite removes
      the front of what the right one has put in, by the length of the overlap. */
  lemma OverlappingEdits(content: string, left: Edit, right: Edit)
    requires left.start < right.start < left.end < right.end <= |content|
    ensures SortEdits([left, right]) == [right, left]
    ensures ApplyAll(content, [right, left])
         == content[..left.start] + left.text + Slice(right.text + content[right.end..], left.end - right.start, |right.text| + |content|)
  {
    assert [left, right][..1] == [left] && [left][..0] == [] && [right, left][1..] == [left] && [left][1..] == [];
    assert SortEdits([left]) == [left];
    OverlapOnce(content, left, right);
    assert ApplyAll(content, [right, left]) == ApplyAll(Apply(content, right), [left])
        == ApplyAll(Apply(Apply(content, right), left), []);
  }

  lemma OverlapOnce(content: string, left: Edit, right: Edit)
    requires left.start < right.start < left.end < right.end <= |content|
    ensures Apply(Apply(content, right), left)
         == content[..left.start] + left.text + Slice(right.text + content[right.end..], left.end - right.start, |right.text| + |content|)
  {
    var once, behind := Apply(content, right), right.text + content[right.end..];
    assert once == content[..right.start] + behind;
    assert Slice(once, 0, left.start) == content[..left.start];
    assert Slice(once, left.end, |once|) == Slice(behind, left.end - right.start, |right.text| + |content|);
  }

  /** By how much the edits lengthen the text. */
  function Growth(edits: seq<Edit>): int {
    if edits == [] then 0 else |edits[0].text| - (edits[0].end - edits[0].start) + Growth(edits[1..])
  }

  /** Replacing spans behind `lo` keeps what is before it, and lengthens the text by the growth of the edits. */
  lemma {:induction false} AtOnceGrows(content: string, edits: seq<Edit>, lo: nat, hi: nat)
    requires lo <= hi <= |content| && RightToLeft(edits, hi) && forall k | 0 <= k < |edits| :: lo <= edits[k].start
    ensures |AtOnce(content, edits, hi)| == hi + Growth(edits) >= lo
    ensures AtOnce(content, edits, hi)[..lo] == content[..lo]
  {
    if edits != [] {
      AtOnceGrows(content, edits[1..], lo, edits[0].start);
    }
  }

  /** Nested matches: the inner ones are rewritten first, and the outer one then cuts at an offset of the
      old text. The outer rewrite comes out right exactly when the inner ones together kept the length, or
      only shortened a span with nothing behind the outer match. */
  lemma NestedEdits(content: string, outer: Edit, inner: seq<Edit>)
    requires outer.start < outer.end <= |content| && RightToLeft(inner, outer.end)
    requires forall k | 0 <= k < |inner| :: outer.start < inner[k].start
    ensures ApplyAll(content, inner + [outer]) == Apply(content, outer) <==>
            Growth(inner) == 0 || (outer.end == |content| && Growth(inner) < 0)
  {
    var front, behind := AtOnce(content, inner, outer.end), content[outer.end..];
    assert Slice(content, 0, outer.end) + behind == content;
    ApplyAllIsAtOnce(content, inner, outer.end, behind);
    AtOnceGrows(content, inner, outer.start, outer.end);
    LastApplied(content, inner, outer);
    OuterCut(content, front, behind, outer);
  }

  lemma {:induction false} LastApplied(content: string, edits: seq<Edit>, last: Edit)
    ensures ApplyAll(content, edits + [last]) == Apply(ApplyAll(content, edits), last)
    decreases |edits|
  {
    if edits == [] {
      assert [] + [last] == [last] && [last][1..] == [];
    } else {
      LastApplied(Apply(content, edits[0]), edits[1..], last);
      assert (edits + [last])[1..] == edits[1..] + [last];
    }
  }

  /** Cutting at the old offset, when the text before it has become `front`. */
  lemma OuterCut(content: string, front: string, behind: string, outer: Edit)
    requires outer.start < outer.end <= |content| && behind == content[outer.end..]
    requires outer.start <= |front| && front[..outer.start] == content[..outer.start]
    ensures Apply(front + behind, outer) == Apply(content, outer) <==>
            |front| == outer.end || (behind == "" && |front| < outer.end)
  {
    var once := front + behind;
    var head := content[..outer.start] + outer.text;
    assert Slice(once, 0, outer.start) == content[..outer.start];
    assert Apply(once, outer) == head + Slice(once, outer.end, |once|);
    assert Apply(content, outer) == head + behind;
    if |front| == outer.end {
      assert once[outer.end..] == behind;
    }
    if Apply(once, outer) == Apply(content, outer) {
      assert |Slice(once, outer.end, |once|)| == |behind|;
    }
  }
}
