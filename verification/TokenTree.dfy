/** Grouping tokens by brackets. */
module TokenTree {
  import opened Sequences
  import opened Tokenizer

  predicate IsOpener(t: Token) { t.kind == Punct && (t.value == "(" || t.value == "{" || t.value == "[") }

  predicate IsCloser(t: Token) { t.kind == Punct && (t.value == ")" || t.value == "}" || t.value == "]") }

  function OpenerOf(closer: string): string {
    if closer == ")" then "(" else if closer == "}" then "{" else "["
  }

  datatype Frame = Frame(opener: Token, children: seq<Token>)

  function MakeGroup(opener: Token, closer: Token, children: seq<Token>): Token {
    Token(Group, opener.value + closer.value, opener.start, closer.end, opener.line, opener.col, children)
  }

  /** The bracket stack and the finished top-level tokens. */
  datatype Partial = Partial(stack: seq<Frame>, done: seq<Token>)

  function Add(p: Partial, t: Token): Partial {
    if p.stack == [] then p.(done := p.done + [t])
    else
      var n := |p.stack| - 1;
      p.(stack := p.stack[..n] + [p.stack[n].(children := p.stack[n].children + [t])])
  }

  predicate Closes(p: Partial, t: Token) {
    IsCloser(t) && p.stack != [] && p.stack[|p.stack| - 1].opener.value == OpenerOf(t.value)
  }

  function Step(p: Partial, t: Token): Partial {
    if t.kind == Comment then p
    else if IsOpener(t) then p.(stack := p.stack + [Frame(t, [])])
    else if Closes(p, t) then
      var n := |p.stack| - 1;
      Add(p.(stack := p.stack[..n]), MakeGroup(p.stack[n].opener, t, p.stack[n].children))
    else Add(p, t)
  }

  /** Unclosed openers become ordinary tokens, outermost first, each before what it had collected. */
  function Drained(stack: seq<Frame>): seq<Token> {
    if stack == [] then [] else [stack[0].opener] + stack[0].children + Drained(stack[1..])
  }

  function Finish(p: Partial): seq<Token> {
    p.done + Drained(p.stack)
  }

  function Steps(p: Partial, tokens: seq<Token>): Partial
    decreases |tokens|
  {
    if tokens == [] then p else Steps(Step(p, tokens[0]), tokens[1..])
  }

  function Tree(tokens: seq<Token>): seq<Token> {
    Finish(Steps(Partial([], []), tokens))
  }

  method BuildTokenTree(tokens: seq<Token>) returns (result: seq<Token>)
    ensures result == Tree(tokens)
  {
    result := [];
    var stack: seq<Frame> := [];
    assert tokens[0..] == tokens;
    for i := 0 to |tokens|
      invariant Steps(Partial(stack, result), tokens[i..]) == Steps(Partial([], []), tokens)
    {
      var token := tokens[i];
      assert tokens[i..][0] == token && tokens[i..][1..] == tokens[i + 1..];
      if token.kind != Comment {
        if IsOpener(token) {
          stack := stack + [Frame(token, [])];
        } else if IsCloser(token) && |stack| > 0 && stack[|stack| - 1].opener.value == OpenerOf(token.value) {
          var top := stack[|stack| - 1];
          stack := stack[..|stack| - 1];
          stack, result := Place(stack, result, MakeGroup(top.opener, token, top.children));
        } else {
          stack, result := Place(stack, result, token);
        }
      }
    }
    ghost var p := Partial(stack, result);
    while |stack| > 0
      invariant result + Drained(stack) == Finish(p)
      decreases |stack|
    {
      var item := stack[0];
      stack := stack[1..];
      result := result + [item.opener] + item.children;
    }
  }

  /** Appends to the innermost open group, or to the top level. */
  method Place(stack: seq<Frame>, result: seq<Token>, t: Token) returns (stack': seq<Frame>, result': seq<Token>)
    ensures Partial(stack', result') == Add(Partial(stack, result), t)
  {
    stack', result' := stack, result;
    if |stack| > 0 {
      var top := stack[|stack| - 1];
      stack' := stack[..|stack| - 1] + [top.(children := top.children + [t])];
    } else {
      result' := result + [t];
    }
  }

  // ---------------------------------------------------------------------------------------------
  // Nothing is lost

  /** What a tree keeps of every token; a group keeps no position of its closer but its end. */
  datatype Leaf = Leaf(kind: Kind, value: string, start: int, end: int)

  function LeafOf(t: Token): Leaf {
    Leaf(t.kind, t.value, t.start, t.end)
  }

  function Leaves(tokens: seq<Token>): seq<Leaf> {
    if tokens == [] then []
    else if tokens[0].kind == Comment then Leaves(tokens[1..])
    else [LeafOf(tokens[0])] + Leaves(tokens[1..])
  }

  function First(s: string): string { if s == "" then "" else s[..1] }

  function Rest(s: string): string { if s == "" then "" else s[1..] }

  /** The tree read from left to right: opener, children, closer. */
  function Flatten(forest: seq<Token>): seq<Leaf> {
    if forest == [] then []
    else FlattenToken(forest[0]) + Flatten(forest[1..])
  }

  function FlattenToken(t: Token): seq<Leaf> {
    if t.kind != Group then [LeafOf(t)]
    else
      [Leaf(Punct, First(t.value), t.start, t.start + 1)] + Flatten(t.children)
      + [Leaf(Punct, Rest(t.value), t.end - 1, t.end)]
  }

  function FlattenStack(stack: seq<Frame>): seq<Leaf> {
    if stack == [] then []
    else
      var n := |stack| - 1;
      FlattenStack(stack[..n]) + [LeafOf(stack[n].opener)] + Flatten(stack[n].children)
  }

  function Content(p: Partial): seq<Leaf> {
    Flatten(p.done) + FlattenStack(p.stack)
  }

  /** Tokens as the lexer makes them: no groups, and every bracket is one character wide. */
  predicate Lexed(t: Token) {
    t.kind != Group && (IsOpener(t) || IsCloser(t) ==> t.end == t.start + 1)
  }

  ghost predicate OpenersOnStack(p: Partial) {
    forall k | 0 <= k < |p.stack| :: IsOpener(p.stack[k].opener) && Lexed(p.stack[k].opener)
  }

  lemma Regroup<T>(a: seq<T>, b: seq<T>, c: seq<T>, d: seq<T>, e: seq<T>)
    ensures (a + b) + (c + d + e) == a + (b + c + d) + e
  {
  }

  lemma FlattenCons(t: Token, rest: seq<Token>)
    ensures Flatten([t] + rest) == FlattenToken(t) + Flatten(rest)
  {
    assert ([t] + rest)[1..] == rest;
  }

  lemma {:induction false} FlattenAppend(a: seq<Token>, b: seq<Token>)
    ensures Flatten(a + b) == Flatten(a) + Flatten(b)
  {
    if a == [] {
      assert a + b == b;
    } else {
      var t, rest := a[0], a[1..];
      FlattenAppend(rest, b);
      FlattenCons(t, rest + b);
      assert a + b == [t] + (rest + b);
      Associate(FlattenToken(t), Flatten(rest), Flatten(b));
    }
  }

  lemma FlattenOne(t: Token)
    ensures Flatten([t]) == FlattenToken(t)
  {
    assert [t][1..] == [];
  }

  lemma AddContent(p: Partial, t: Token)
    ensures Content(Add(p, t)) == Content(p) + FlattenToken(t)
  {
    FlattenOne(t);
    if p.stack == [] {
      FlattenAppend(p.done, [t]);
    } else {
      var n := |p.stack| - 1;
      var frame := p.stack[n];
      FlattenAppend(frame.children, [t]);
      TopContent(p.stack[..n], frame, frame.(children := frame.children + [t]), FlattenToken(t));
      assert p.stack[..n] + [frame] == p.stack;
      Associate(Flatten(p.done), FlattenStack(p.stack), FlattenToken(t));
    }
  }

  lemma TopContent(below: seq<Frame>, frame: Frame, after: Frame, more: seq<Leaf>)
    requires after.opener == frame.opener && Flatten(after.children) == Flatten(frame.children) + more
    ensures FlattenStack(below + [after]) == FlattenStack(below + [frame]) + more
  {
    assert (below + [after])[..|below|] == below && (below + [frame])[..|below|] == below;
    Associate(FlattenStack(below) + [LeafOf(frame.opener)], Flatten(frame.children), more);
  }

  lemma CloseContent(p: Partial, t: Token)
    requires OpenersOnStack(p) && Closes(p, t) && Lexed(t)
    ensures Content(Step(p, t)) == Content(p) + [LeafOf(t)]
  {
    var n := |p.stack| - 1;
    var top := p.stack[n];
    var group := MakeGroup(top.opener, t, top.children);
    AddContent(p.(stack := p.stack[..n]), group);
    FlattenGroup(top.opener, t, top.children);
    Regroup(Flatten(p.done), FlattenStack(p.stack[..n]), [LeafOf(top.opener)], Flatten(top.children), [LeafOf(t)]);
  }

  lemma FlattenGroup(opener: Token, closer: Token, children: seq<Token>)
    requires IsOpener(opener) && IsCloser(closer) && Lexed(opener) && Lexed(closer)
    ensures FlattenToken(MakeGroup(opener, closer, children)) == [LeafOf(opener)] + Flatten(children) + [LeafOf(closer)]
  {
    assert First(opener.value + closer.value) == opener.value && Rest(opener.value + closer.value) == closer.value;
  }

  lemma OpenContent(p: Partial, t: Token)
    ensures Content(p.(stack := p.stack + [Frame(t, [])])) == Content(p) + [LeafOf(t)]
  {
    var q := p.stack + [Frame(t, [])];
    assert q[..|q| - 1] == p.stack;
  }

  lemma StepOpeners(p: Partial, t: Token)
    requires OpenersOnStack(p) && Lexed(t)
    ensures OpenersOnStack(Step(p, t))
  {
  }

  lemma StepContent(p: Partial, t: Token)
    requires OpenersOnStack(p) && Lexed(t)
    ensures Content(Step(p, t)) == Content(p) + if t.kind == Comment then [] else [LeafOf(t)]
  {
    if t.kind == Comment {
      assert Content(p) + [] == Content(p);
    } else if IsOpener(t) {
      OpenContent(p, t);
    } else if Closes(p, t) {
      CloseContent(p, t);
    } else {
      AddContent(p, t);
    }
  }

  lemma {:induction false} StepsContent(p: Partial, tokens: seq<Token>)
    requires OpenersOnStack(p) && forall k | 0 <= k < |tokens| :: Lexed(tokens[k])
    ensures OpenersOnStack(Steps(p, tokens))
    ensures Content(Steps(p, tokens)) == Content(p) + Leaves(tokens)
    decreases |tokens|
  {
    if tokens != [] {
      StepOpeners(p, tokens[0]);
      StepContent(p, tokens[0]);
      StepsContent(Step(p, tokens[0]), tokens[1..]);
      LeavesOn(Content(p), tokens);
    } else {
      assert Content(p) + [] == Content(p);
    }
  }

  lemma LeavesOn(before: seq<Leaf>, tokens: seq<Token>)
    requires tokens != []
    ensures before + (if tokens[0].kind == Comment then [] else [LeafOf(tokens[0])]) + Leaves(tokens[1..]) == before + Leaves(tokens)
  {
    if tokens[0].kind == Comment {
      assert before + [] == before;
    } else {
      Associate(before, [LeafOf(tokens[0])], Leaves(tokens[1..]));
    }
  }

  lemma {:induction false} DrainedContent(stack: seq<Frame>)
    requires forall k | 0 <= k < |stack| :: Lexed(stack[k].opener)
    ensures Flatten(Drained(stack)) == FlattenStack(stack)
  {
    if stack != [] {
      var n := |stack| - 1;
      DrainedContent(stack[..n]);
      DrainedAppend(stack[..n], stack[n]);
      assert stack[..n] + [stack[n]] == stack;
      FlattenAppend(Drained(stack[..n]), [stack[n].opener] + stack[n].children);
      FlattenAppend([stack[n].opener], stack[n].children);
      FlattenOne(stack[n].opener);
    }
  }

  lemma {:induction false} DrainedAppend(stack: seq<Frame>, f: Frame)
    ensures Drained(stack + [f]) == Drained(stack) + ([f.opener] + f.children)
  {
    if stack == [] {
      assert [f][1..] == [];
    } else {
      DrainedAppend(stack[1..], f);
      assert (stack + [f])[1..] == stack[1..] + [f];
      Associate([stack[0].opener] + stack[0].children, Drained(stack[1..]), [f.opener] + f.children);
    }
  }

  /** The tree is lossless: read from left to right it is the input without its comments, even with
      unmatched closers and unclosed openers. */
  lemma TreeIsLossless(tokens: seq<Token>)
    requires forall k | 0 <= k < |tokens| :: Lexed(tokens[k])
    ensures Flatten(Tree(tokens)) == Leaves(tokens)
  {
    var p := Steps(Partial([], []), tokens);
    StepsContent(Partial([], []), tokens);
    DrainedContent(p.stack);
    FlattenAppend(p.done, Drained(p.stack));
  }

  // ---------------------------------------------------------------------------------------------
  // Spans

  ghost predicate OrderedLeaves(leaves: seq<Leaf>, lo: int, hi: int) {
    if leaves == [] then lo <= hi
    else lo <= leaves[0].start < leaves[0].end && OrderedLeaves(leaves[1..], leaves[0].end, hi)
  }

  /** Siblings are ordered and disjoint between `lo` and `hi`, and children lie between the brackets of
      their group. */
  ghost predicate Nested(forest: seq<Token>, lo: int, hi: int) {
    if forest == [] then lo <= hi
    else
      var t := forest[0];
      && lo <= t.start < t.end
      && (t.kind == Group ==> Nested(t.children, t.start + 1, t.end - 1))
      && Nested(forest[1..], t.end, hi)
  }

  function EndOf(leaves: seq<Leaf>, lo: int): int {
    if leaves == [] then lo else leaves[|leaves| - 1].end
  }

  lemma {:induction false} OrderedSplit(a: seq<Leaf>, b: seq<Leaf>, lo: int, hi: int)
    requires OrderedLeaves(a + b, lo, hi)
    ensures OrderedLeaves(a, lo, EndOf(a, lo)) && OrderedLeaves(b, EndOf(a, lo), hi)
  {
    if a == [] {
      assert a + b == b;
    } else {
      assert (a + b)[1..] == a[1..] + b;
      OrderedSplit(a[1..], b, a[0].end, hi);
    }
  }

  lemma {:induction false} OrderedWiden(leaves: seq<Leaf>, lo: int, mid: int, hi: int)
    requires OrderedLeaves(leaves, lo, mid) && mid <= hi
    ensures OrderedLeaves(leaves, lo, hi)
  {
    if leaves != [] {
      OrderedWiden(leaves[1..], leaves[0].end, mid, hi);
    }
  }

  lemma GroupSpans(t: Token, lo: int, hi: int)
    requires t.kind == Group && OrderedLeaves(FlattenToken(t), lo, hi)
    ensures lo <= t.start < t.end <= hi && OrderedLeaves(Flatten(t.children), t.start + 1, t.end - 1)
  {
    var opener := [Leaf(Punct, First(t.value), t.start, t.start + 1)];
    var closer := [Leaf(Punct, Rest(t.value), t.end - 1, t.end)];
    var inner := Flatten(t.children);
    assert FlattenToken(t) == opener + (inner + closer);
    OrderedSplit(opener, inner + closer, lo, hi);
    OrderedSplit(inner, closer, t.start + 1, hi);
    OrderedWiden(inner, t.start + 1, EndOf(inner, t.start + 1), t.end - 1);
    OrderedSplit(opener, [], lo, t.start + 1) by {
      assert opener + [] == opener;
    }
    OrderedBounds(inner, t.start + 1, EndOf(inner, t.start + 1));
    assert closer[1..] == [];
  }

  lemma {:induction false} OrderedBounds(leaves: seq<Leaf>, lo: int, hi: int)
    requires OrderedLeaves(leaves, lo, hi)
    ensures lo <= EndOf(leaves, lo) <= hi
  {
    if leaves != [] {
      OrderedBounds(leaves[1..], leaves[0].end, hi);
    }
  }

  lemma {:induction false} OrderedIsNested(forest: seq<Token>, lo: int, hi: int)
    requires OrderedLeaves(Flatten(forest), lo, hi)
    ensures Nested(forest, lo, hi)
  {
    if forest != [] {
      var t, rest := forest[0], forest[1..];
      var mid := EndOf(FlattenToken(t), lo);
      assert Flatten(forest) == FlattenToken(t) + Flatten(rest);
      OrderedSplit(FlattenToken(t), Flatten(rest), lo, hi);
      if t.kind == Group {
        GroupSpans(t, lo, mid);
        OrderedIsNested(t.children, t.start + 1, t.end - 1);
      }
      OrderedIsNested(rest, mid, hi);
    }
  }

  lemma {:induction false} TilesAreOrdered(code: string, tokens: seq<Token>, from: nat)
    requires Tiles(code, tokens, from) && from <= |code| + 1
    ensures OrderedLeaves(Leaves(tokens), from, |code| + 1)
  {
    if tokens != [] {
      TilesAreOrdered(code, tokens[1..], tokens[0].end);
      if tokens[0].kind == Comment {
        OrderedLater(Leaves(tokens[1..]), from, tokens[0].end, |code| + 1);
      }
    }
  }

  lemma OrderedLater(leaves: seq<Leaf>, lo: int, mid: int, hi: int)
    requires lo <= mid && OrderedLeaves(leaves, mid, hi)
    ensures OrderedLeaves(leaves, lo, hi)
  {
  }

  /** The lexer's tokens satisfy what the tree builder relies on. */
  lemma LexIsLexed(code: string, isPattern: bool)
    ensures forall k | 0 <= k < |Lex(code, 0, isPattern)| :: Lexed(Lex(code, 0, isPattern)[k])
  {
    LexTiles(code, 0, isPattern);
    LexNamed(code, 0, isPattern);
    forall k | 0 <= k < |Lex(code, 0, isPattern)|
      ensures Lexed(Lex(code, 0, isPattern)[k])
    {
      TilesAt(code, Lex(code, 0, isPattern), 0, k);
    }
  }

  /** In the tree of a text, siblings follow each other without overlap and children lie inside. */
  lemma TreeIsNested(code: string, isPattern: bool)
    ensures Nested(Tree(Lex(code, 0, isPattern)), 0, |code| + 1)
  {
    var tokens := Lex(code, 0, isPattern);
    LexTiles(code, 0, isPattern);
    LexIsLexed(code, isPattern);
    TreeIsLossless(tokens);
    TilesAreOrdered(code, tokens, 0);
    OrderedIsNested(Tree(tokens), 0, |code| + 1);
  }

  // ---------------------------------------------------------------------------------------------
  // Balance

  /** No bracket is left as a token of its own, at any depth. */
  ghost predicate NoLooseBracket(forest: seq<Token>) {
    if forest == [] then true
    else
      && (if forest[0].kind == Group then NoLooseBracket(forest[0].children)
          else forest[0].kind == Punct ==> forest[0].value !in {"(", "{", "[", ")", "}", "]"})
      && NoLooseBracket(forest[1..])
  }

  /** The brackets of `tokens`, read after the still open brackets `open`, match up completely. */
  ghost predicate Balanced(tokens: seq<Token>, open: seq<string>) {
    if tokens == [] then open == []
    else
      var t, n := tokens[0], |open| - 1;
      if t.kind == Punct && t.value in {"(", "{", "["} then Balanced(tokens[1..], open + [t.value])
      else if t.kind == Punct && t.value in {")", "}", "]"} then
        open != [] && (open[n], t.value) in {("(", ")"), ("{", "}"), ("[", "]")} && Balanced(tokens[1..], open[..n])
      else Balanced(tokens[1..], open)
  }

  function OpenValues(stack: seq<Frame>): (r: seq<string>)
    ensures |r| == |stack|
  {
    seq(|stack|, i requires 0 <= i < |stack| => stack[i].opener.value)
  }

  ghost predicate CleanSoFar(p: Partial) {
    NoLooseBracket(p.done) && forall k | 0 <= k < |p.stack| :: NoLooseBracket(p.stack[k].children)
  }

  lemma {:induction false} LooseAppend(a: seq<Token>, b: seq<Token>)
    ensures NoLooseBracket(a + b) <==> NoLooseBracket(a) && NoLooseBracket(b)
  {
    if a == [] {
      assert a + b == b;
    } else {
      LooseAppend(a[1..], b);
      assert (a + b)[1..] == a[1..] + b;
    }
  }

  lemma AddClean(p: Partial, t: Token)
    ensures CleanSoFar(Add(p, t)) <==> CleanSoFar(p) && NoLooseBracket([t])
    ensures OpenValues(Add(p, t).stack) == OpenValues(p.stack)
  {
    if p.stack == [] {
      LooseAppend(p.done, [t]);
    } else {
      var n := |p.stack| - 1;
      LooseAppend(p.stack[n].children, [t]);
      assert Add(p, t).stack[n].children == p.stack[n].children + [t];
      assert forall k | 0 <= k < n :: Add(p, t).stack[k] == p.stack[k];
    }
  }

  lemma DrainedLoose(stack: seq<Frame>)
    requires forall k | 0 <= k < |stack| :: IsOpener(stack[k].opener) && Lexed(stack[k].opener)
    ensures NoLooseBracket(Drained(stack)) <==> stack == []
  {
  }

  lemma StepClean(p: Partial, t: Token)
    requires OpenersOnStack(p) && Lexed(t)
    ensures CleanSoFar(Step(p, t)) <==> CleanSoFar(p) && (t.kind != Comment && IsCloser(t) ==> Closes(p, t))
    ensures t.kind == Comment || (!IsOpener(t) && !Closes(p, t)) ==> OpenValues(Step(p, t).stack) == OpenValues(p.stack)
    ensures t.kind != Comment && IsOpener(t) ==> OpenValues(Step(p, t).stack) == OpenValues(p.stack) + [t.value]
    ensures Closes(p, t) ==> OpenValues(Step(p, t).stack) == OpenValues(p.stack)[..|p.stack| - 1]
  {
    if t.kind == Comment {
    } else if IsOpener(t) {
      OpenClean(p, t, Step(p, t));
    } else if Closes(p, t) {
      CloseClean(p, t, |p.stack| - 1);
    } else {
      AddClean(p, t);
      assert [t][1..] == [];
    }
  }

  lemma OpenClean(p: Partial, t: Token, q: Partial)
    requires q == p.(stack := p.stack + [Frame(t, [])])
    ensures CleanSoFar(q) <==> CleanSoFar(p)
    ensures OpenValues(q.stack) == OpenValues(p.stack) + [t.value]
  {
    assert forall k | 0 <= k < |p.stack| :: q.stack[k] == p.stack[k];
    assert q.stack[|p.stack|].children == [];
  }

  lemma CloseClean(p: Partial, t: Token, n: nat)
    requires Closes(p, t) && t.kind != Comment && !IsOpener(t) && n == |p.stack| - 1
    ensures CleanSoFar(Step(p, t)) <==> CleanSoFar(p)
    ensures OpenValues(Step(p, t).stack) == OpenValues(p.stack)[..n]
  {
    var below, group := p.(stack := p.stack[..n]), MakeGroup(p.stack[n].opener, t, p.stack[n].children);
    AddClean(below, group);
    assert [group][1..] == [];
    assert CleanSoFar(p) <==> CleanSoFar(below) && NoLooseBracket(p.stack[n].children);
  }

  lemma FirstBracket(tokens: seq<Token>, open: seq<string>, t: Token)
    requires tokens != [] && t == tokens[0]
    ensures IsOpener(t) ==> (Balanced(tokens, open) <==> Balanced(tokens[1..], open + [t.value]))
    ensures IsCloser(t) ==>
              (Balanced(tokens, open)
               <==> open != [] && open[|open| - 1] == OpenerOf(t.value) && Balanced(tokens[1..], open[..|open| - 1]))
    ensures !IsOpener(t) && !IsCloser(t) ==> (Balanced(tokens, open) <==> Balanced(tokens[1..], open))
  {
  }

  /** What the first token does to the brackets still open. */
  lemma FirstBalanced(p: Partial, q: Partial, tokens: seq<Token>)
    requires tokens != [] && OpenersOnStack(p) && Lexed(tokens[0]) && q == Step(p, tokens[0])
    ensures CleanSoFar(p) && Balanced(tokens, OpenValues(p.stack)) <==> CleanSoFar(q) && Balanced(tokens[1..], OpenValues(q.stack))
  {
    StepClean(p, tokens[0]);
    FirstBracket(tokens, OpenValues(p.stack), tokens[0]);
  }

  lemma {:induction false} StepsClean(p: Partial, tokens: seq<Token>)
    requires OpenersOnStack(p) && forall k | 0 <= k < |tokens| :: Lexed(tokens[k])
    ensures NoLooseBracket(Finish(Steps(p, tokens))) <==> CleanSoFar(p) && Balanced(tokens, OpenValues(p.stack))
    decreases |tokens|
  {
    if tokens == [] {
      FinishClean(p);
    } else {
      var q := Step(p, tokens[0]);
      StepOpeners(p, tokens[0]);
      FirstBalanced(p, q, tokens);
      StepsClean(q, tokens[1..]);
    }
  }

  lemma FinishClean(p: Partial)
    requires OpenersOnStack(p)
    ensures NoLooseBracket(Finish(p)) <==> CleanSoFar(p) && OpenValues(p.stack) == []
  {
    LooseAppend(p.done, Drained(p.stack));
    DrainedLoose(p.stack);
  }

  /** Every bracket ends up in a group exactly when the input is balanced. */
  lemma TreeIsCleanIffBalanced(tokens: seq<Token>)
    requires forall k | 0 <= k < |tokens| :: Lexed(tokens[k])
    ensures NoLooseBracket(Tree(tokens)) <==> Balanced(tokens, [])
  {
    StepsClean(Partial([], []), tokens);
    assert OpenValues([]) == [];
  }
}
