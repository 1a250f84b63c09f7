/** The structural matcher: a pattern tree against a sequence of target tokens. */
module Matcher {
  import opened Tokenizer

  type Bindings = map<string, string>

  const ANONYMOUS := "$_"

  function TokenText(code: string, t: Token): string {
    Slice(code, t.start, t.end)
  }

  /** The source text of a run of tokens. */
  function RunText(code: string, ts: seq<Token>): string {
    if ts == [] then "" else Slice(code, ts[0].start, ts[|ts| - 1].end)
  }

  /** A successful match: how many target tokens it takes, the bindings, and how many tokens each
      sequence metavariable that is not last at its level captures. */
  datatype Match = NoMatch | Matched(consumed: nat, bindings: Bindings, captures: seq<nat>)

  /** The first element of a pattern matches the token `t`, other than as a sequence metavariable. */
  predicate Agrees(p: Token, t: Token, code: string, b: Bindings) {
    if p.kind == Metavar then p.value == ANONYMOUS || p.value !in b || b[p.value] == TokenText(code, t)
    else p.value == t.value
  }

  function Bind(p: Token, t: Token, code: string, b: Bindings): Bindings {
    if p.kind == Metavar && p.value != ANONYMOUS then b[p.value := TokenText(code, t)] else b
  }

  function Longer(m: Match, n: nat): Match {
    if m.NoMatch? then m else m.(consumed := m.consumed + n)
  }

  /** What matchSequence computes, one pattern element at a time. */
  function MatchSeq(pattern: seq<Token>, target: seq<Token>, code: string, b: Bindings): (m: Match)
    ensures m.Matched? ==> m.consumed <= |target|
    decreases pattern, |target| + 1
  {
    if pattern == [] then Matched(0, b, [])
    else if pattern[0].kind == MultiMetavar then
      if |pattern| == 1 then MatchRest(pattern[0].value, target, code, b) else Search(pattern, target, code, b, 0)
    else if target == [] then NoMatch
    else if pattern[0].kind == Group && target[0].kind == Group then
      if pattern[0].value != target[0].value then NoMatch
      else
        var child := MatchSeq(pattern[0].children, target[0].children, code, b);
        if child.NoMatch? || child.consumed != |target[0].children| then NoMatch
        else Longer(MatchSeq(pattern[1..], target[1..], code, b + child.bindings), 1)
    else if !Agrees(pattern[0], target[0], code, b) then NoMatch
    else Longer(MatchSeq(pattern[1..], target[1..], code, Bind(pattern[0], target[0], code, b)), 1)
  }

  /** A sequence metavariable in last position takes the rest. */
  function MatchRest(name: string, target: seq<Token>, code: string, b: Bindings): (m: Match)
    ensures m.Matched? ==> m.consumed == |target|
  {
    if target == [] then Matched(0, b[name := ""], [])
    else if name in b && b[name] != RunText(code, target) then NoMatch
    else Matched(|target|, b[name := RunText(code, target)], [])
  }

  /** A sequence metavariable takes the fewest tokens, from `count` on, after which the rest matches. */
  function Search(pattern: seq<Token>, target: seq<Token>, code: string, b: Bindings, count: nat): (m: Match)
    requires |pattern| > 1
    ensures m.Matched? ==> m.consumed <= |target|
    decreases pattern, if count <= |target| then |target| - count else 0
  {
    if count > |target| then NoMatch
    else
      var name := pattern[0].value;
      var rest := MatchSeq(pattern[1..], target[count..], code, b);
      var text := RunText(code, target[..count]);
      if rest.Matched? && (name !in b || b[name] == text) then
        Matched(count + rest.consumed, b[name := text] + rest.bindings, [count] + rest.captures)
      else if count == |target| then NoMatch
      else Search(pattern, target, code, b, count + 1)
  }

  // ---------------------------------------------------------------------------------------------
  // matchSequence

  datatype Report = Report(matched: bool, consumed: nat, bindings: Bindings)

  function Reported(m: Match, b: Bindings): (r: Report)
    ensures r.matched <==> m.Matched?
    ensures r.matched ==> r.consumed == m.consumed && r.bindings == m.bindings
  {
    if m.NoMatch? then Report(false, 0, b) else Report(true, m.consumed, m.bindings)
  }

  lemma MatchSeqAt(pattern: seq<Token>, target: seq<Token>, code: string, b: Bindings, i: nat, j: nat)
    requires i < |pattern| && j <= |target|
    ensures pattern[i..][1..] == pattern[i + 1..] && (j < |target| ==> target[j..][1..] == target[j + 1..])
  {
  }

  method MatchSequence(pattern: seq<Token>, target: seq<Token>, code: string, bindings: Bindings) returns (r: Report)
    ensures r == Reported(MatchSeq(pattern, target, code, bindings), bindings)
    decreases pattern
  {
    var pIdx, tIdx := 0, 0;
    var current := bindings;
    assert pattern[0..] == pattern && target[0..] == target;
    while pIdx < |pattern|
      invariant 0 <= pIdx <= |pattern| && 0 <= tIdx <= |target|
      invariant Reported(MatchSeq(pattern, target, code, bindings), bindings)
             == Reported(Longer(MatchSeq(pattern[pIdx..], target[tIdx..], code, current), tIdx), bindings)
    {
      var pTok := pattern[pIdx];
      MatchSeqAt(pattern, target, code, current, pIdx, tIdx);
      if pTok.kind == MultiMetavar {
        if pIdx + 1 == |pattern| {
          r := Rest(pTok.value, target, tIdx, code, current, bindings);
        } else {
          r := SearchFrom(pattern, target, pIdx, tIdx, code, current, bindings);
        }
        return;
      }
      if tIdx >= |target| {
        return Report(false, 0, bindings);
      }
      var tTok := target[tIdx];
      if pTok.kind == Group && tTok.kind == Group {
        if pTok.value != tTok.value {
          return Report(false, 0, bindings);
        }
        var child := MatchSequence(pTok.children, tTok.children, code, current);
        if !child.matched || child.consumed != |tTok.children| {
          return Report(false, 0, bindings);
        }
        current := current + child.bindings;
      } else {
        if !Agrees(pTok, tTok, code, current) {
          return Report(false, 0, bindings);
        }
        current := Bind(pTok, tTok, code, current);
      }
      pIdx := pIdx + 1;
      tIdx := tIdx + 1;
    }
    r := Report(true, tIdx, current);
  }

  /** The last pattern element is a sequence metavariable. */
  method Rest(name: string, target: seq<Token>, tIdx: nat, code: string, current: Bindings, bindings: Bindings)
    returns (r: Report)
    requires tIdx <= |target|
    ensures r == Reported(Longer(MatchRest(name, target[tIdx..], code, current), tIdx), bindings)
  {
    var captured := target[tIdx..];
    if |captured| > 0 {
      var text := RunText(code, captured);
      if name in current && current[name] != text {
        return Report(false, 0, bindings);
      }
      return Report(true, |target|, current[name := text]);
    }
    return Report(true, |target|, current[name := ""]);
  }

  /** The loop that tries to let a sequence metavariable take 0, 1, 2, ... tokens. */
  method SearchFrom(pattern: seq<Token>, target: seq<Token>, pIdx: nat, tIdx: nat, code: string, current: Bindings, bindings: Bindings)
    returns (r: Report)
    requires pIdx + 1 < |pattern| && tIdx <= |target|
    ensures r == Reported(Longer(Search(pattern[pIdx..], target[tIdx..], code, current, 0), tIdx), bindings)
    decreases pattern, 0
  {
    var name := pattern[pIdx].value;
    ghost var rest := target[tIdx..];
    var count := 0;
    while tIdx + count <= |target|
      invariant 0 <= count <= |rest| + 1
      invariant Search(pattern[pIdx..], rest, code, current, 0) == if count > |rest| then NoMatch else Search(pattern[pIdx..], rest, code, current, count)
      decreases |target| - count
    {
      assert pattern[pIdx..][1..] == pattern[pIdx + 1..];
      assert rest[count..] == target[tIdx + count..] && rest[..count] == target[tIdx..tIdx + count];
      var sub := MatchSequence(pattern[pIdx + 1..], target[tIdx + count..], code, current);
      if sub.matched {
        var text := RunText(code, target[tIdx..tIdx + count]);
        if !(name in current && current[name] != text) {
          return Report(true, tIdx + count + sub.consumed, current[name := text] + sub.bindings);
        }
      }
      count := count + 1;
    }
    return Report(false, 0, bindings);
  }
}
