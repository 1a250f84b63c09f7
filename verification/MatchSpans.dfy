/** How the matches of one search lie in the text: in order, and nested or apart, unless they are runs of one level. */
module MatchSpans {
  import opened Sequences
  import opened Tokenizer
  import opened TokenTree
  import opened Matcher
  import opened StructuralSearch

  lemma {:induction false} NestedBounds(forest: seq<Token>, lo: int, hi: int)
    requires Nested(forest, lo, hi)
    ensures lo <= hi && forall i | 0 <= i < |forest| :: lo <= forest[i].start < forest[i].end <= hi
    ensures forall i, j | 0 <= i < j < |forest| :: forest[i].end <= forest[j].start
  {
    if forest != [] {
      NestedBounds(forest[1..], forest[0].end, hi);
      assert forall j | 0 < j < |forest| :: forest[j] == forest[1..][j - 1];
    }
  }

  ghost predicate Between(r: MatchResult, lo: int, hi: int) { lo <= r.start < r.end <= hi }

  ghost predicate AllBetween(found: seq<MatchResult>, lo: int, hi: int) { forall k | 0 <= k < |found| :: Between(found[k], lo, hi) }

  ghost predicate Ascending(found: seq<MatchResult>) { forall i, j | 0 <= i < j < |found| :: found[i].start < found[j].start }

  /** A match starts with its first token and ends with its last one. */
  lemma ReportSpans(pattern: seq<Token>, nodes: seq<Token>, code: string, lo: int, hi: int)
    requires Nested(nodes, lo, hi)
    ensures AllBetween(ReportAt(pattern, nodes, code), lo, hi) && |ReportAt(pattern, nodes, code)| <= 1
    ensures forall r | r in ReportAt(pattern, nodes, code) ::
              0 < MatchSeq(pattern, nodes, code, map[]).consumed <= |nodes| &&
              r.start == nodes[0].start && r.end == nodes[MatchSeq(pattern, nodes, code, map[]).consumed - 1].end
  {
    NestedBounds(nodes, lo, hi);
  }

  lemma JoinAscends(a: seq<MatchResult>, b: seq<MatchResult>, x: int, lo: int, hi: int)
    requires Ascending(a) && AllBetween(a, lo, hi) && Ascending(b) && AllBetween(b, lo, hi)
    requires forall k | 0 <= k < |a| :: a[k].start < x
    requires forall k | 0 <= k < |b| :: x <= b[k].start
    ensures Ascending(a + b) && AllBetween(a + b, lo, hi)
  {
  }

  /** The search meets its matches from left to right: every one starts behind the one before. */
  lemma {:induction false} FoundAscends(pattern: seq<Token>, nodes: seq<Token>, code: string, lo: int, hi: int)
    requires Nested(nodes, lo, hi)
    ensures AllBetween(Found(pattern, nodes, code), lo, hi) && Ascending(Found(pattern, nodes, code))
  {
    if nodes != [] {
      var t := nodes[0];
      var own, rest := ReportAt(pattern, nodes, code), Found(pattern, nodes[1..], code);
      NestedBounds(nodes, lo, hi);
      ReportSpans(pattern, nodes, code, lo, hi);
      FoundAscends(pattern, nodes[1..], code, t.end, hi);
      if t.kind == Group {
        var inner := Found(pattern, t.children, code);
        FoundAscends(pattern, t.children, code, t.start + 1, t.end - 1);
        JoinAscends(own, inner, t.start + 1, lo, hi);
        JoinAscends(own + inner, rest, t.end, lo, hi);
      } else {
        JoinAscends(own, rest, t.end, lo, hi);
      }
    }
  }

  lemma FoundBetween(pattern: seq<Token>, nodes: seq<Token>, code: string, lo: int, hi: int, r: MatchResult)
    requires Nested(nodes, lo, hi) && r in Found(pattern, nodes, code)
    ensures Between(r, lo, hi)
  {
    FoundAscends(pattern, nodes, code, lo, hi);
  }

  /** A match lies on this level, or inside one of its groups. */
  lemma {:induction false} OnLevelOrInside(pattern: seq<Token>, nodes: seq<Token>, code: string, r: MatchResult) returns (k: nat)
    requires r in Found(pattern, nodes, code)
    ensures k < |nodes|
    ensures r in ReportAt(pattern, nodes[k..], code) || (nodes[k].kind == Group && r in Found(pattern, nodes[k].children, code))
  {
    if r in ReportAt(pattern, nodes, code) {
      assert nodes[0..] == nodes;
      k := 0;
    } else if nodes[0].kind == Group && r in Found(pattern, nodes[0].children, code) {
      k := 0;
    } else {
      k := OnLevelOrInside(pattern, nodes[1..], code, r);
      assert nodes[1..][k..] == nodes[k + 1..];
      k := k + 1;
    }
  }

  /** `s` starts inside `r` and ends behind it. */
  ghost predicate Crosses(r: MatchResult, s: MatchResult) { r.start < s.start < r.end < s.end }

  /** Both are runs of one level of the tree, the second starting inside the first. */
  ghost predicate OfOneLevel(pattern: seq<Token>, tree: seq<Token>, code: string, r: MatchResult, s: MatchResult) {
    exists nodes, k: nat ::
      0 < k < |nodes| && Site(tree, nodes) && r in ReportAt(pattern, nodes, code) && s in ReportAt(pattern, nodes[k..], code)
      && k < MatchSeq(pattern, nodes, code, map[]).consumed
  }

  lemma {:induction false} NestedFrom(nodes: seq<Token>, lo: int, hi: int, k: nat)
    requires Nested(nodes, lo, hi) && k < |nodes|
    ensures Nested(nodes[k..], nodes[k].start, hi)
    ensures nodes[k].kind == Group ==> Nested(nodes[k].children, nodes[k].start + 1, nodes[k].end - 1)
  {
    if k > 0 {
      NestedFrom(nodes[1..], nodes[0].end, hi, k - 1);
      assert nodes[1..][k - 1..] == nodes[k..];
    }
  }

  /** A match on the level that starts inside the one at its front. */
  lemma CrossingOnLevel(pattern: seq<Token>, nodes: seq<Token>, code: string, lo: int, hi: int, r: MatchResult, s: MatchResult, k: nat)
    requires Nested(nodes, lo, hi) && Crosses(r, s) && k < |nodes|
    requires r in ReportAt(pattern, nodes, code) && s in ReportAt(pattern, nodes[k..], code)
    ensures OfOneLevel(pattern, nodes, code, r, s)
  {
    NestedBounds(nodes, lo, hi);
    NestedFrom(nodes, lo, hi, k);
    ReportSpans(pattern, nodes, code, lo, hi);
    ReportSpans(pattern, nodes[k..], code, nodes[k].start, hi);
    assert k > 0 && k < MatchSeq(pattern, nodes, code, map[]).consumed;
    assert Site(nodes, nodes);
  }

  /** A run of a level does not cross what lies inside one of its tokens. */
  lemma RunCoversTokens(pattern: seq<Token>, nodes: seq<Token>, code: string, lo: int, hi: int, r: MatchResult, s: MatchResult, k: nat)
    requires Nested(nodes, lo, hi) && k < |nodes| && r in ReportAt(pattern, nodes, code)
    requires Between(s, nodes[k].start + 1, nodes[k].end - 1)
    ensures !Crosses(r, s)
  {
    NestedBounds(nodes, lo, hi);
    ReportSpans(pattern, nodes, code, lo, hi);
  }

  /** A match that crosses one at the front of a level is on that level too. */
  lemma CrossingFront(pattern: seq<Token>, nodes: seq<Token>, code: string, lo: int, hi: int, r: MatchResult, s: MatchResult)
    requires Nested(nodes, lo, hi) && Crosses(r, s)
    requires r in ReportAt(pattern, nodes, code) && s in Found(pattern, nodes, code)
    ensures OfOneLevel(pattern, nodes, code, r, s)
  {
    var k := OnLevelOrInside(pattern, nodes, code, s);
    if s in ReportAt(pattern, nodes[k..], code) {
      CrossingOnLevel(pattern, nodes, code, lo, hi, r, s, k);
    } else {
      NestedFrom(nodes, lo, hi, k);
      FoundBetween(pattern, nodes[k].children, code, nodes[k].start + 1, nodes[k].end - 1, s);
      RunCoversTokens(pattern, nodes, code, lo, hi, r, s, k);
    }
  }

  /** What holds inside the first group, or behind the first token, holds of the whole level. */
  lemma OfOneLevelBelow(pattern: seq<Token>, tree: seq<Token>, below: seq<Token>, code: string, r: MatchResult, s: MatchResult)
    requires tree != [] && (below == tree[1..] || (tree[0].kind == Group && below == tree[0].children))
    requires OfOneLevel(pattern, below, code, r, s)
    ensures OfOneLevel(pattern, tree, code, r, s)
  {
    var nodes, k: nat :|
      0 < k < |nodes| && Site(below, nodes) && r in ReportAt(pattern, nodes, code) && s in ReportAt(pattern, nodes[k..], code)
      && k < MatchSeq(pattern, nodes, code, map[]).consumed;
    assert Site(tree, nodes);
  }

  /** What lies inside the first token, or behind it. */
  function Part(tree: seq<Token>, inside: bool): seq<Token>
    requires tree != []
  {
    if inside then tree[0].children else tree[1..]
  }

  ghost predicate InPart(pattern: seq<Token>, tree: seq<Token>, code: string, r: MatchResult, inside: bool) {
    tree != [] && (inside ==> tree[0].kind == Group) && r in Found(pattern, Part(tree, inside), code)
  }

  /** A match is at the front of the level, or in one of the parts. */
  lemma FoundParts(pattern: seq<Token>, tree: seq<Token>, code: string, r: MatchResult)
    requires tree != [] && r in Found(pattern, tree, code)
    ensures r in ReportAt(pattern, tree, code) || InPart(pattern, tree, code, r, true) || InPart(pattern, tree, code, r, false)
  {
  }

  lemma PartBetween(pattern: seq<Token>, tree: seq<Token>, code: string, lo: int, hi: int, r: MatchResult, inside: bool)
    requires Nested(tree, lo, hi) && InPart(pattern, tree, code, r, inside)
    ensures if inside then Between(r, tree[0].start + 1, tree[0].end - 1) else Between(r, tree[0].end, hi)
    ensures tree[0].start < tree[0].end
  {
    var t := tree[0];
    if inside {
      FoundBetween(pattern, t.children, code, t.start + 1, t.end - 1, r);
    } else {
      FoundBetween(pattern, tree[1..], code, t.end, hi, r);
    }
  }

  /** A match that is not at the front of the level is in one of the parts: by where it starts. */
  lemma Below(pattern: seq<Token>, tree: seq<Token>, code: string, lo: int, hi: int, r: MatchResult)
    requires tree != [] && Nested(tree, lo, hi) && r in Found(pattern, tree, code)
    ensures tree[0].start < r.start ==> InPart(pattern, tree, code, r, r.start < tree[0].end)
    ensures tree[0].start < r.start < tree[0].end ==> r.end < tree[0].end
    ensures r in ReportAt(pattern, tree, code) || tree[0].start < r.start
  {
    FoundParts(pattern, tree, code, r);
    if InPart(pattern, tree, code, r, true) {
      PartBetween(pattern, tree, code, lo, hi, r, true);
    } else if InPart(pattern, tree, code, r, false) {
      PartBetween(pattern, tree, code, lo, hi, r, false);
    } else {
      ReportSpans(pattern, tree, code, lo, hi);
    }
  }

  /** Two crossing matches that are not at the front lie in the same part. */
  lemma BothBelow(pattern: seq<Token>, tree: seq<Token>, code: string, lo: int, hi: int, r: MatchResult, s: MatchResult)
    requires tree != [] && Nested(tree, lo, hi) && Crosses(r, s) && tree[0].start < r.start
    requires r in Found(pattern, tree, code) && s in Found(pattern, tree, code)
    ensures InPart(pattern, tree, code, r, r.start < tree[0].end) && InPart(pattern, tree, code, s, r.start < tree[0].end)
  {
    Below(pattern, tree, code, lo, hi, r);
    Below(pattern, tree, code, lo, hi, s);
    NestedBounds(tree, lo, hi);
    assert r.start < tree[0].end <==> s.start < tree[0].end;
  }

  /** Two matches of one search cross only if they are runs of one level. */
  lemma {:induction false} CrossingIsOfOneLevel(pattern: seq<Token>, tree: seq<Token>, code: string, lo: int, hi: int, r: MatchResult, s: MatchResult)
    requires Nested(tree, lo, hi) && Crosses(r, s)
    requires r in Found(pattern, tree, code) && s in Found(pattern, tree, code)
    ensures OfOneLevel(pattern, tree, code, r, s)
  {
    var t, inside := tree[0], r.start < tree[0].end;
    Below(pattern, tree, code, lo, hi, r);
    if r.start <= t.start {
      CrossingFront(pattern, tree, code, lo, hi, r, s);
    } else {
      BothBelow(pattern, tree, code, lo, hi, r, s);
      if inside {
        CrossingIsOfOneLevel(pattern, t.children, code, t.start + 1, t.end - 1, r, s);
        OfOneLevelBelow(pattern, tree, t.children, code, r, s);
      } else {
        CrossingIsOfOneLevel(pattern, tree[1..], code, t.end, hi, r, s);
        OfOneLevelBelow(pattern, tree, tree[1..], code, r, s);
      }
    }
  }

  // ---------------------------------------------------------------------------------------------
  // Patterns of one element

  /** One token, or one group, or one single metavariable. */
  predicate OneElement(pattern: seq<Token>) { |pattern| == 1 && pattern[0].kind != MultiMetavar }

  lemma OneIsConsumed(pattern: seq<Token>, nodes: seq<Token>, code: string)
    requires OneElement(pattern) && MatchSeq(pattern, nodes, code, map[]).Matched?
    ensures MatchSeq(pattern, nodes, code, map[]).consumed == 1
  {
    assert pattern[1..] == [];
  }

  /** `s` lies inside `r`. */
  ghost predicate Inside(s: MatchResult, r: MatchResult) { r.start < s.start && s.end <= r.end }

  /** Any two matches of one search, the left one first: apart, one inside the other, or crossing runs of one level. */
  lemma TwoMatches(pattern: seq<Token>, tree: seq<Token>, code: string, lo: int, hi: int, i: nat, j: nat)
    requires Nested(tree, lo, hi) && i < j < |Found(pattern, tree, code)|
    ensures var r, s := Found(pattern, tree, code)[i], Found(pattern, tree, code)[j];
            r.end <= s.start || Inside(s, r) || (Crosses(r, s) && OfOneLevel(pattern, tree, code, r, s) && !OneElement(pattern))
  {
    var r, s := Found(pattern, tree, code)[i], Found(pattern, tree, code)[j];
    FoundAscends(pattern, tree, code, lo, hi);
    if Crosses(r, s) {
      CrossingIsOfOneLevel(pattern, tree, code, lo, hi, r, s);
      if OneElement(pattern) {
        var nodes, k: nat :|
          0 < k < |nodes| && Site(tree, nodes) && r in ReportAt(pattern, nodes, code) && s in ReportAt(pattern, nodes[k..], code)
          && k < MatchSeq(pattern, nodes, code, map[]).consumed;
        OneIsConsumed(pattern, nodes, code);
        assert false;
      }
    }
  }

  /** They do cross: `$A $B` matches the first two of three tokens, and the last two. */
  lemma PairsCross(p: Token, q: Token, a: Token, b: Token, c: Token, code: string)
    requires p.kind == q.kind == Metavar && p.value != q.value
    requires a.kind != Group && b.kind != Group && c.kind != Group && a.start < b.start < b.end < c.end
    ensures var found := Found([p, q], [a, b, c], code); |found| == 2 && Crosses(found[0], found[1])
  {
    assert [a, b, c][1..] == [b, c] && [b, c][1..] == [c] && [c][1..] == [];
    PairMatches(p, q, a, b, [c], code);
    PairMatches(p, q, b, c, [], code);
    assert [a, b] + [c] == [a, b, c] && [b, c] + [] == [b, c];
    assert MatchSeq([p, q], [c], code, map[]).NoMatch? by {
      assert [p, q][1..] == [q];
    }
    assert Found([p, q], [c], code) == [];
  }

  lemma PairMatches(p: Token, q: Token, a: Token, b: Token, rest: seq<Token>, code: string)
    requires p.kind == q.kind == Metavar && p.value != q.value
    ensures var r := ReportAt([p, q], [a, b] + rest, code); |r| == 1 && r[0].start == a.start && r[0].end == b.end
  {
    var nodes := [a, b] + rest;
    assert [p, q][1..] == [q] && [q][1..] == [] && nodes[1..] == [b] + rest && ([b] + rest)[1..] == rest;
    var one := Bind(p, a, code, map[]);
    assert MatchSeq([], rest, code, Bind(q, b, code, one)).Matched?;
    assert MatchSeq([q], [b] + rest, code, one).Matched? && MatchSeq([q], [b] + rest, code, one).consumed == 1;
    assert MatchSeq([p, q], nodes, code, map[]).Matched? && MatchSeq([p, q], nodes, code, map[]).consumed == 2;
  }

  // ---------------------------------------------------------------------------------------------
  // Search and replace

  /** The matches of a pattern text in a source text. */
  function Matches(patternText: string, code: string): seq<MatchResult> {
    Found(Tree(Lex(patternText, 0, true)), Tree(Lex(code, 0, false)), code)
  }

  /** One edit per match, each at the place of its match. */
  ghost predicate EditsOf(edits: seq<Edit>, found: seq<MatchResult>) {
    |edits| == |found| && forall k | 0 <= k < |edits| :: edits[k].start == found[k].start && edits[k].end == found[k].end
  }

  function Reversed(edits: seq<Edit>): (r: seq<Edit>)
    ensures |r| == |edits|
  {
    if edits == [] then [] else [edits[|edits| - 1]] + Reversed(edits[..|edits| - 1])
  }

  lemma {:induction false} SortReverses(edits: seq<Edit>)
    requires forall i, j | 0 <= i < j < |edits| :: edits[i].start < edits[j].start
    ensures SortEdits(edits) == Reversed(edits)
  {
    if edits != [] {
      var front := edits[..|edits| - 1];
      SortReverses(front);
      if front != [] {
        assert SortEdits(front)[0] == front[|front| - 1];
      }
    }
  }

  /** No match overlaps the next one: what a caller can check on the list of matches. */
  predicate InRow(found: seq<MatchResult>) { forall k | 0 < k < |found| :: found[k - 1].end <= found[k].start }

  lemma {:induction false} RowIsApart(found: seq<MatchResult>, i: nat, j: nat)
    requires i < j < |found| && InRow(found) && forall k | 0 <= k < |found| :: found[k].start < found[k].end
    ensures found[i].end <= found[j].start
  {
    if i + 1 < j {
      RowIsApart(found, i, j - 1);
    }
  }

  /** Edits are made in the reverse of the order in which their matches are found. */
  lemma LastIsEditedFirst(patternText: string, code: string, edits: seq<Edit>)
    requires EditsOf(edits, Matches(patternText, code))
    ensures AllBetween(Matches(patternText, code), 0, |code| + 1) && Ascending(Matches(patternText, code))
    ensures SortEdits(edits) == Reversed(edits)
  {
    TreeIsNested(code, false);
    FoundAscends(Tree(Lex(patternText, 0, true)), Tree(Lex(code, 0, false)), code, 0, |code| + 1);
    SortReverses(edits);
  }

  /** The edits are disjoint exactly when no match overlaps the next. */
  lemma DisjointIffInRow(edits: seq<Edit>, found: seq<MatchResult>, hi: nat)
    requires EditsOf(edits, found) && AllBetween(found, 0, hi) && Ascending(found)
    ensures Disjoint(edits, hi) <==> InRow(found)
  {
    if InRow(found) {
      forall i, j | 0 <= i < j < |edits|
        ensures edits[i].end <= edits[j].start
      {
        RowIsApart(found, i, j);
      }
    }
    if Disjoint(edits, hi) {
      forall k | 0 < k < |found|
        ensures found[k - 1].end <= found[k].start
      {
        var left, right := edits[k - 1], edits[k];
        assert left.start < right.start < right.end;
      }
    }
  }

  /** From texts to text: if no match overlaps the next one, replacing them one by one replaces all at once. */
  lemma ReplaceIsSubstitution(patternText: string, code: string, edits: seq<Edit>)
    requires EditsOf(edits, Matches(patternText, code)) && InRow(Matches(patternText, code))
    ensures ApplyAll(code, SortEdits(edits)) == AtOnce(code, Reversed(edits), |code| + 1)
  {
    LastIsEditedFirst(patternText, code, edits);
    ReplaceInRow(code, edits, Matches(patternText, code));
  }

  lemma ReplaceInRow(code: string, edits: seq<Edit>, found: seq<MatchResult>)
    requires EditsOf(edits, found) && InRow(found) && AllBetween(found, 0, |code| + 1) && Ascending(found)
    ensures ApplyAll(code, SortEdits(edits)) == AtOnce(code, SortEdits(edits), |code| + 1)
  {
    DisjointIffInRow(edits, found, |code| + 1);
    SpliceIsSubstitution(code, edits);
  }

  /** `rest` lies inside `outer`, without overlaps. */
  ghost predicate AllInside(outer: Edit, rest: seq<Edit>) {
    Disjoint(rest, outer.end) && forall k | 0 <= k < |rest| :: outer.start < rest[k].start
  }

  /** A match with any others inside it, in the order found: spliced one by one, its own rewrite comes out
      right exactly when the others together keep the length, or only shorten it with nothing behind. */
  lemma OuterMatchWins(code: string, outer: Edit, rest: seq<Edit>)
    requires outer.start < outer.end <= |code| && AllInside(outer, rest)
    ensures ApplyAll(code, SortEdits([outer] + rest)) == Apply(code, outer) <==>
            Growth(rest) == 0 || (outer.end == |code| && Growth(rest) < 0)
  {
    var sorted := SortEdits(rest);
    forall k | 0 <= k < |sorted|
      ensures sorted[k] in rest && outer.start < sorted[k].start && sorted[k].start < sorted[k].end <= outer.end
    {
      assert sorted[k] in sorted;
    }
    OuterIsLast(outer, rest);
    SortedInside(rest, outer.end);
    GrowthOfSorted(rest);
    NestedEdits(code, outer, sorted);
  }

  lemma {:induction false} GrowthOfInsert(sorted: seq<Edit>, e: Edit)
    ensures Growth(InsertEdit(sorted, e)) == Growth(sorted) + |e.text| - (e.end - e.start)
  {
    if sorted != [] && e.start <= sorted[0].start {
      GrowthOfInsert(sorted[1..], e);
    }
  }

  lemma {:induction false} GrowthOfMore(edits: seq<Edit>, e: Edit)
    ensures Growth(edits + [e]) == Growth(edits) + |e.text| - (e.end - e.start)
  {
    if edits == [] {
      assert [] + [e] == [e];
    } else {
      GrowthOfMore(edits[1..], e);
      assert (edits + [e])[1..] == edits[1..] + [e];
    }
  }

  lemma {:induction false} GrowthOfSorted(edits: seq<Edit>)
    ensures Growth(SortEdits(edits)) == Growth(edits)
    decreases |edits|
  {
    if edits != [] {
      var n := |edits| - 1;
      GrowthOfSorted(edits[..n]);
      GrowthOfInsert(SortEdits(edits[..n]), edits[n]);
      GrowthOfMore(edits[..n], edits[n]);
      assert edits == edits[..n] + [edits[n]];
    }
  }

  lemma {:induction false} OuterIsLast(outer: Edit, rest: seq<Edit>)
    requires forall k | 0 <= k < |rest| :: outer.start < rest[k].start
    ensures SortEdits([outer] + rest) == SortEdits(rest) + [outer]
    decreases |rest|
  {
    if rest == [] {
      assert [outer] + rest == [outer] && [outer][..0] == [];
    } else {
      var n := |rest| - 1;
      OuterIsLast(outer, rest[..n]);
      assert ([outer] + rest)[..n + 1] == [outer] + rest[..n];
      InsertAhead(SortEdits(rest[..n]), outer, rest[n]);
    }
  }

  lemma {:induction false} InsertAhead(sorted: seq<Edit>, outer: Edit, e: Edit)
    requires outer.start < e.start
    ensures InsertEdit(sorted + [outer], e) == InsertEdit(sorted, e) + [outer]
  {
    if sorted != [] {
      assert (sorted + [outer])[0] == sorted[0] && (sorted + [outer])[1..] == sorted[1..] + [outer];
      if e.start <= sorted[0].start {
        InsertAhead(sorted[1..], outer, e);
        Associate([sorted[0]], InsertEdit(sorted[1..], e), [outer]);
      } else {
        Associate([e], sorted, [outer]);
      }
    }
  }
}
