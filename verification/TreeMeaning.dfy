/** What the nodes of a token tree are, read off the text: tokens, and groups between brackets that fit. */
module TreeMeaning {
  import opened Tokenizer
  import opened TokenTree
  import opened TokenMeaning

  /** A group stands between two brackets that fit, bears their names, and is placed where the first one is;
      any other node is a token that is no comment. */
  ghost predicate NodeMeans(code: string, t: Token, isPattern: bool)
    decreases t
  {
    if t.kind == Group then
      && t.start < |code| && 1 <= t.end <= |code| && Fit(code[t.start], code[t.end - 1])
      && t.value == [code[t.start], code[t.end - 1]] && PlaceFits(code, t) && AllMean(code, t.children, isPattern)
    else Means(code, t, isPattern) && t.kind != Comment
  }

  ghost predicate Fit(open: char, close: char) { (open, close) in {('(', ')'), ('{', '}'), ('[', ']')} }

  ghost predicate AllMean(code: string, forest: seq<Token>, isPattern: bool)
    decreases forest
  {
    forest == [] || (NodeMeans(code, forest[0], isPattern) && AllMean(code, forest[1..], isPattern))
  }

  lemma {:induction false} AllMeanAppend(code: string, a: seq<Token>, b: seq<Token>, isPattern: bool)
    ensures AllMean(code, a + b, isPattern) <==> AllMean(code, a, isPattern) && AllMean(code, b, isPattern)
  {
    if a == [] {
      assert a + b == b;
    } else {
      AllMeanAppend(code, a[1..], b, isPattern);
      assert (a + b)[0] == a[0] && (a + b)[1..] == a[1..] + b;
    }
  }

  lemma OneMeans(code: string, t: Token, isPattern: bool)
    ensures AllMean(code, [t], isPattern) <==> NodeMeans(code, t, isPattern)
  {
    assert [t][1..] == [];
  }

  ghost predicate FrameMeans(code: string, f: Frame, isPattern: bool) {
    Means(code, f.opener, isPattern) && IsOpener(f.opener) && AllMean(code, f.children, isPattern)
  }

  ghost predicate StackMeans(code: string, stack: seq<Frame>, isPattern: bool) {
    forall k | 0 <= k < |stack| :: FrameMeans(code, stack[k], isPattern)
  }

  ghost predicate PartialMeans(code: string, p: Partial, isPattern: bool) {
    AllMean(code, p.done, isPattern) && StackMeans(code, p.stack, isPattern)
  }

  lemma AddMeans(code: string, p: Partial, t: Token, isPattern: bool)
    requires PartialMeans(code, p, isPattern) && NodeMeans(code, t, isPattern)
    ensures PartialMeans(code, Add(p, t), isPattern)
  {
    OneMeans(code, t, isPattern);
    if p.stack == [] {
      AllMeanAppend(code, p.done, [t], isPattern);
    } else {
      var top := p.stack[|p.stack| - 1];
      AllMeanAppend(code, top.children, [t], isPattern);
      TopMeans(code, p.stack[..|p.stack| - 1], top.(children := top.children + [t]), isPattern);
    }
  }

  lemma TopMeans(code: string, stack: seq<Frame>, f: Frame, isPattern: bool)
    requires StackMeans(code, stack, isPattern) && FrameMeans(code, f, isPattern)
    ensures StackMeans(code, stack + [f], isPattern)
  {
  }

  /** A bracket is one character of the text. */
  ghost predicate IsBracket(code: string, t: Token) {
    t.end == t.start + 1 <= |code| && t.value == [code[t.start]] && PlaceFits(code, t)
  }

  lemma BracketAt(code: string, t: Token, isPattern: bool)
    requires Means(code, t, isPattern) && |t.value| == 1
    ensures IsBracket(code, t)
  {
    var text := if t.end <= |code| then code[t.start..t.end] else code[t.start..];
    assert t.value[0] == text[0] == code[t.start];
    if t.end > |code| {
      PastTheEnd(code, t, isPattern);
      assert false;
    }
  }

  /** Only a string that dangles passes the end, and it holds more than its quote. */
  lemma PastTheEnd(code: string, t: Token, isPattern: bool)
    requires Means(code, t, isPattern) && t.end > |code|
    ensures |t.value| > 1
  {
    assert t.kind == Str;
  }

  lemma Pair(open: char, close: char)
    requires [close] in {")", "}", "]"} && [open] == OpenerOf([close])
    ensures Fit(open, close)
  {
    assert [open][0] == OpenerOf([close])[0];
  }

  lemma GroupMeans(code: string, opener: Token, closer: Token, children: seq<Token>, isPattern: bool)
    requires IsBracket(code, opener) && IsBracket(code, closer) && AllMean(code, children, isPattern)
    requires closer.value in {")", "}", "]"} && opener.value == OpenerOf(closer.value)
    ensures NodeMeans(code, MakeGroup(opener, closer, children), isPattern)
  {
    Pair(code[opener.start], code[closer.start]);
    assert opener.value + closer.value == [code[opener.start], code[closer.start]];
  }

  lemma OpenMeans(code: string, stack: seq<Frame>, t: Token, isPattern: bool)
    requires StackMeans(code, stack, isPattern) && Means(code, t, isPattern) && IsOpener(t)
    ensures StackMeans(code, stack + [Frame(t, [])], isPattern)
  {
    TopMeans(code, stack, Frame(t, []), isPattern);
  }

  lemma CloseMeans(code: string, p: Partial, t: Token, isPattern: bool)
    requires PartialMeans(code, p, isPattern) && Means(code, t, isPattern) && Closes(p, t)
    ensures PartialMeans(code, TokenTree.Step(p, t), isPattern)
  {
    var n := |p.stack| - 1;
    assert FrameMeans(code, p.stack[n], isPattern);
    BracketAt(code, p.stack[n].opener, isPattern);
    BracketAt(code, t, isPattern);
    GroupMeans(code, p.stack[n].opener, t, p.stack[n].children, isPattern);
    BelowMeans(code, p, p.(stack := p.stack[..n]), MakeGroup(p.stack[n].opener, t, p.stack[n].children), isPattern);
  }

  lemma BelowMeans(code: string, p: Partial, below: Partial, group: Token, isPattern: bool)
    requires PartialMeans(code, p, isPattern) && p.stack != [] && below == p.(stack := p.stack[..|p.stack| - 1])
    requires NodeMeans(code, group, isPattern)
    ensures PartialMeans(code, Add(below, group), isPattern)
  {
    AddMeans(code, below, group, isPattern);
  }

  lemma StepMeans(code: string, p: Partial, t: Token, isPattern: bool)
    requires PartialMeans(code, p, isPattern) && Means(code, t, isPattern)
    ensures PartialMeans(code, TokenTree.Step(p, t), isPattern)
  {
    if t.kind == Comment {
      assert TokenTree.Step(p, t) == p;
    } else if IsOpener(t) {
      OpenMeans(code, p.stack, t, isPattern);
    } else if Closes(p, t) {
      CloseMeans(code, p, t, isPattern);
    } else {
      assert NodeMeans(code, t, isPattern);
      AddMeans(code, p, t, isPattern);
    }
  }

  lemma {:induction false} StepsMean(code: string, p: Partial, tokens: seq<Token>, isPattern: bool)
    requires PartialMeans(code, p, isPattern) && forall k | 0 <= k < |tokens| :: Means(code, tokens[k], isPattern)
    ensures PartialMeans(code, Steps(p, tokens), isPattern)
    decreases |tokens|
  {
    if tokens != [] {
      StepMeans(code, p, tokens[0], isPattern);
      StepsMean(code, TokenTree.Step(p, tokens[0]), tokens[1..], isPattern);
    }
  }

  lemma {:induction false} DrainedMeans(code: string, stack: seq<Frame>, isPattern: bool)
    requires StackMeans(code, stack, isPattern)
    ensures AllMean(code, Drained(stack), isPattern)
  {
    if stack != [] {
      assert FrameMeans(code, stack[0], isPattern);
      DrainedMeans(code, stack[1..], isPattern);
      OneMeans(code, stack[0].opener, isPattern);
      AllMeanAppend(code, [stack[0].opener], stack[0].children, isPattern);
      AllMeanAppend(code, [stack[0].opener] + stack[0].children, Drained(stack[1..]), isPattern);
    }
  }

  /** Every node of the tree of a text, at any depth, is what the text says it is. */
  lemma TreeMeans(code: string, isPattern: bool)
    ensures AllMean(code, Tree(Lex(code, 0, isPattern)), isPattern)
  {
    var tokens := Lex(code, 0, isPattern);
    var start := Partial([], []);
    var p := Steps(start, tokens);
    TokensMean(code, 0, isPattern);
    StepsMean(code, start, tokens, isPattern);
    DrainedMeans(code, p.stack, isPattern);
    AllMeanAppend(code, p.done, Drained(p.stack), isPattern);
  }
}
