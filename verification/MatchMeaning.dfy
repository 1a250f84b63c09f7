/** What a match means, independently of how it is found; soundness and completeness of the matcher. */
module MatchMeaning {
  import opened Tokenizer
  import opened Matcher

  /** How often the sequence metavariable `v` occurs in the pattern, at any depth. */
  function Occurrences(pattern: seq<Token>, v: string): nat {
    if pattern == [] then 0
    else
      (if pattern[0].kind == MultiMetavar && pattern[0].value == v then 1
       else if pattern[0].kind == Group then Occurrences(pattern[0].children, v)
       else 0)
      + Occurrences(pattern[1..], v)
  }

  /** The single metavariable `v`, other than the anonymous one, occurs in the pattern. */
  predicate Mentions(pattern: seq<Token>, v: string) {
    pattern != [] &&
    (|| (pattern[0].kind == Metavar && pattern[0].value == v && v != ANONYMOUS)
     || (pattern[0].kind == Group && Mentions(pattern[0].children, v))
     || Mentions(pattern[1..], v))
  }

  /** `target` is an instance of `pattern` under `sigma`: literals are equal, groups match whole, every
      occurrence of one single metavariable stands for the same text, and a sequence metavariable stands
      for one contiguous run, of the length `captures` says unless it is last at its level. The text of
      a sequence metavariable is required to be the bound one for those in `checked` only. */
  ghost predicate Instance(pattern: seq<Token>, target: seq<Token>, code: string, sigma: Bindings, captures: seq<nat>, checked: iset<string>)
    decreases pattern
  {
    if pattern == [] then target == [] && captures == []
    else if pattern[0].kind == MultiMetavar then
      if |pattern| == 1 then captures == [] && StandsFor(pattern[0].value, target, code, sigma, checked)
      else
        && captures != [] && captures[0] <= |target|
        && StandsFor(pattern[0].value, target[..captures[0]], code, sigma, checked)
        && Instance(pattern[1..], target[captures[0]..], code, sigma, captures[1..], checked)
    else
      && target != []
      && Instance(pattern[1..], target[1..], code, sigma, captures, checked)
      && (if pattern[0].kind == Group && target[0].kind == Group then
            pattern[0].value == target[0].value &&
            exists inner :: Instance(pattern[0].children, target[0].children, code, sigma, inner, checked)
          else if pattern[0].kind == Metavar then
            pattern[0].value == "$_" || (pattern[0].value in sigma && sigma[pattern[0].value] == Slice(code, target[0].start, target[0].end))
          else pattern[0].value == target[0].value)
  }

  ghost predicate StandsFor(v: string, run: seq<Token>, code: string, sigma: Bindings, checked: iset<string>) {
    v in checked ==> v in sigma && sigma[v] == if run == [] then "" else Slice(code, run[0].start, run[|run| - 1].end)
  }

  /** Single and sequence metavariables have different names, as the lexer guarantees. */
  ghost predicate Apart(pattern: seq<Token>) {
    forall v :: !(Mentions(pattern, v) && Occurrences(pattern, v) > 0)
  }

  ghost predicate Once(pattern: seq<Token>, checked: iset<string>) {
    forall v | v in checked :: Occurrences(pattern, v) <= 1
  }

  /** The bindings an instance depends on. */
  ghost predicate Needs(pattern: seq<Token>, v: string, checked: iset<string>) {
    Mentions(pattern, v) || (v in checked && Occurrences(pattern, v) > 0)
  }

  ghost predicate Agree(a: Bindings, b: Bindings, v: string) {
    v in a ==> v in b && b[v] == a[v]
  }

  lemma {:induction false} InstanceDepends(
    pattern: seq<Token>, target: seq<Token>, code: string, a: Bindings, b: Bindings, captures: seq<nat>, checked: iset<string>)
    requires Instance(pattern, target, code, a, captures, checked)
    requires forall v :: Needs(pattern, v, checked) ==> Agree(a, b, v)
    ensures Instance(pattern, target, code, b, captures, checked)
    decreases pattern
  {
    if pattern != [] {
      var p := pattern[0];
      assert forall v :: Needs(pattern[1..], v, checked) ==> Needs(pattern, v, checked);
      if p.kind == MultiMetavar {
        assert p.value in checked ==> Needs(pattern, p.value, checked);
        if |pattern| > 1 {
          InstanceDepends(pattern[1..], target[captures[0]..], code, a, b, captures[1..], checked);
        }
      } else {
        InstanceDepends(pattern[1..], target[1..], code, a, b, captures, checked);
        if p.kind == Group && target[0].kind == Group {
          assert forall v :: Needs(p.children, v, checked) ==> Needs(pattern, v, checked);
          var inner :| Instance(p.children, target[0].children, code, a, inner, checked);
          InstanceDepends(p.children, target[0].children, code, a, b, inner, checked);
        } else if p.kind == Metavar && p.value != ANONYMOUS {
          assert Needs(pattern, p.value, checked);
        }
      }
    }
  }

  // ---------------------------------------------------------------------------------------------
  // Bindings only grow

  ghost predicate Grows(pattern: seq<Token>, before: Bindings, after: Bindings) {
    (forall v | v in before :: v in after) &&
    (forall v | v in before && Occurrences(pattern, v) == 0 :: after[v] == before[v]) &&
    (forall v | v in after :: v in before || Mentions(pattern, v) || Occurrences(pattern, v) > 0)
  }

  lemma {:induction false} BindingsGrow(pattern: seq<Token>, target: seq<Token>, code: string, b: Bindings)
    requires MatchSeq(pattern, target, code, b).Matched?
    ensures Grows(pattern, b, MatchSeq(pattern, target, code, b).bindings)
    decreases pattern, |target| + 1
  {
    if pattern != [] {
      var p := pattern[0];
      if p.kind == MultiMetavar {
        if |pattern| > 1 {
          SearchGrows(pattern, target, code, b, 0);
        }
      } else if p.kind == Group && target[0].kind == Group {
        var child := MatchSeq(p.children, target[0].children, code, b);
        BindingsGrow(p.children, target[0].children, code, b);
        BindingsGrow(pattern[1..], target[1..], code, b + child.bindings);
      } else {
        BindingsGrow(pattern[1..], target[1..], code, Bind(p, target[0], code, b));
      }
    }
  }

  lemma {:induction false} SearchGrows(pattern: seq<Token>, target: seq<Token>, code: string, b: Bindings, count: nat)
    requires |pattern| > 1 && pattern[0].kind == MultiMetavar && Search(pattern, target, code, b, count).Matched?
    ensures Grows(pattern, b, Search(pattern, target, code, b, count).bindings)
    decreases pattern, if count <= |target| then |target| - count else 0
  {
    var rest := MatchSeq(pattern[1..], target[count..], code, b);
    var name, text := pattern[0].value, RunText(code, target[..count]);
    if rest.Matched? && (name !in b || b[name] == text) {
      BindingsGrow(pattern[1..], target[count..], code, b);
    } else {
      SearchGrows(pattern, target, code, b, count + 1);
    }
  }

  // ---------------------------------------------------------------------------------------------
  // Soundness

  /** What the matcher binds to `v` fits every occurrence of it: where `v` is not bound yet (`prior` false), its
      first occurrence at a level is the last one there; where an occurrence inside a group has bound it,
      every later one stands before something else at its level, and is checked. */
  predicate Consistent(pattern: seq<Token>, v: string, prior: bool) {
    if pattern == [] then true
    else if pattern[0].kind == MultiMetavar && pattern[0].value == v then
      if |pattern| == 1 then !prior
      else if prior then Consistent(pattern[1..], v, true)
      else Occurrences(pattern[1..], v) == 0
    else
      && Consistent(pattern[1..], v, prior)
      && (pattern[0].kind == Group ==>
            Consistent(pattern[0].children, v, prior) &&
            (Occurrences(pattern[0].children, v) > 0 ==> Consistent(pattern[1..], v, true)))
  }

  ghost predicate AllConsistent(pattern: seq<Token>, checked: iset<string>) {
    forall v | v in checked :: Consistent(pattern, v, false)
  }

  lemma {:induction false} AbsentIsConsistent(pattern: seq<Token>, v: string, prior: bool)
    requires Occurrences(pattern, v) == 0
    ensures Consistent(pattern, v, prior)
  {
    if pattern != [] {
      AbsentIsConsistent(pattern[1..], v, prior);
      if pattern[0].kind == Group {
        AbsentIsConsistent(pattern[0].children, v, prior);
      }
    }
  }

  lemma {:induction false} OnceIsConsistent(pattern: seq<Token>, v: string)
    requires Occurrences(pattern, v) <= 1
    ensures Consistent(pattern, v, false)
  {
    if pattern != [] && !(pattern[0].kind == MultiMetavar && pattern[0].value == v) {
      OnceIsConsistent(pattern[1..], v);
      if pattern[0].kind == Group {
        OnceIsConsistent(pattern[0].children, v);
        if Occurrences(pattern[0].children, v) > 0 {
          AbsentIsConsistent(pattern[1..], v, true);
        }
      }
    }
  }

  /** A name that is bound, and occurs only where it is checked, keeps its binding. */
  lemma {:induction false} MatchKeeps(pattern: seq<Token>, target: seq<Token>, code: string, b: Bindings, v: string)
    requires v in b && Consistent(pattern, v, true) && MatchSeq(pattern, target, code, b).Matched?
    ensures v in MatchSeq(pattern, target, code, b).bindings && MatchSeq(pattern, target, code, b).bindings[v] == b[v]
    decreases pattern, |target| + 1
  {
    if pattern != [] {
      var p := pattern[0];
      if p.kind == MultiMetavar {
        if |pattern| > 1 {
          SearchKeeps(pattern, target, code, b, 0, v);
        }
      } else if p.kind == Group && target[0].kind == Group {
        var child := MatchSeq(p.children, target[0].children, code, b);
        MatchKeeps(p.children, target[0].children, code, b, v);
        MatchKeeps(pattern[1..], target[1..], code, b + child.bindings, v);
      } else {
        MatchKeeps(pattern[1..], target[1..], code, Bind(p, target[0], code, b), v);
      }
    }
  }

  lemma {:induction false} SearchKeeps(pattern: seq<Token>, target: seq<Token>, code: string, b: Bindings, count: nat, v: string)
    requires |pattern| > 1 && pattern[0].kind == MultiMetavar && v in b && Consistent(pattern, v, true)
    requires Search(pattern, target, code, b, count).Matched?
    ensures v in Search(pattern, target, code, b, count).bindings && Search(pattern, target, code, b, count).bindings[v] == b[v]
    decreases pattern, if count <= |target| then |target| - count else 0
  {
    var rest := MatchSeq(pattern[1..], target[count..], code, b);
    var name, text := pattern[0].value, RunText(code, target[..count]);
    if rest.Matched? && (name !in b || b[name] == text) {
      MatchKeeps(pattern[1..], target[count..], code, b, v);
    } else {
      SearchKeeps(pattern, target, code, b, count + 1, v);
    }
  }

  /** Each checked name is unbound as far as the pattern minds, or bound and to be kept. */
  ghost predicate Steady(pattern: seq<Token>, b: Bindings, checked: iset<string>) {
    forall v | v in checked :: Consistent(pattern, v, false) || (v in b && Consistent(pattern, v, true))
  }

  lemma OnceIsSteady(pattern: seq<Token>, b: Bindings, checked: iset<string>)
    requires Once(pattern, checked)
    ensures Steady(pattern, b, checked)
  {
    forall v | v in checked
      ensures Consistent(pattern, v, false)
    {
      OnceIsConsistent(pattern, v);
    }
  }

  /** Whatever the matcher reports is an instance of the pattern: for every pattern with the single
      metavariables, literals and groups, and with every sequence metavariable that occurs consistently. */
  lemma {:induction false} MatchIsInstance(pattern: seq<Token>, target: seq<Token>, code: string, b: Bindings, checked: iset<string>)
    requires Apart(pattern) && Steady(pattern, b, checked) && MatchSeq(pattern, target, code, b).Matched?
    ensures var m := MatchSeq(pattern, target, code, b);
            Instance(pattern, target[..m.consumed], code, m.bindings, m.captures, checked)
    decreases pattern, |target| + 1
  {
    var m := MatchSeq(pattern, target, code, b);
    if pattern != [] {
      var p := pattern[0];
      if p.kind == MultiMetavar {
        if |pattern| > 1 {
          SearchIsInstance(pattern, target, code, b, 0, checked);
        } else {
          assert target[..m.consumed] == target;
        }
      } else if p.kind == Group && target[0].kind == Group {
        GroupIsInstance(pattern, target, code, b, checked);
      } else {
        ElementIsInstance(pattern, target, code, b, checked);
      }
    }
  }

  lemma ApartParts(pattern: seq<Token>)
    requires pattern != [] && Apart(pattern)
    ensures Apart(pattern[1..]) && (pattern[0].kind == Group ==> Apart(pattern[0].children))
  {
    forall v
      ensures Occurrences(pattern[1..], v) <= Occurrences(pattern, v)
      ensures Mentions(pattern[1..], v) ==> Mentions(pattern, v)
    {
    }
    if pattern[0].kind == Group {
      forall v
        ensures Occurrences(pattern[0].children, v) <= Occurrences(pattern, v)
        ensures Mentions(pattern[0].children, v) ==> Mentions(pattern, v)
      {
      }
    }
  }

  lemma SteadyBehindSequence(pattern: seq<Token>, b: Bindings, checked: iset<string>)
    requires |pattern| > 1 && pattern[0].kind == MultiMetavar && Steady(pattern, b, checked)
    ensures Steady(pattern[1..], b, checked)
  {
    forall v | v in checked
      ensures Consistent(pattern[1..], v, false) || (v in b && Consistent(pattern[1..], v, true))
    {
      if Occurrences(pattern[1..], v) == 0 {
        AbsentIsConsistent(pattern[1..], v, false);
      }
    }
  }

  lemma {:induction false} SearchIsInstance(pattern: seq<Token>, target: seq<Token>, code: string, b: Bindings, count: nat, checked: iset<string>)
    requires |pattern| > 1 && pattern[0].kind == MultiMetavar && Apart(pattern) && Steady(pattern, b, checked)
    requires Search(pattern, target, code, b, count).Matched?
    ensures var m := Search(pattern, target, code, b, count);
            Instance(pattern, target[..m.consumed], code, m.bindings, m.captures, checked)
    decreases pattern, if count <= |target| then |target| - count else 0
  {
    var rest := MatchSeq(pattern[1..], target[count..], code, b);
    var name, text := pattern[0].value, RunText(code, target[..count]);
    if rest.Matched? && (name !in b || b[name] == text) {
      ApartParts(pattern);
      SteadyBehindSequence(pattern, b, checked);
      MatchIsInstance(pattern[1..], target[count..], code, b, checked);
      BindingsGrow(pattern[1..], target[count..], code, b);
      var all := b[name := text] + rest.bindings;
      var taken := target[..count + rest.consumed];
      assert taken[..count] == target[..count] && taken[count..] == target[count..][..rest.consumed];
      InstanceDepends(pattern[1..], taken[count..], code, rest.bindings, all, rest.captures, checked);
      assert ([count] + rest.captures)[1..] == rest.captures;
      if name in checked {
        assert Occurrences(pattern, name) > 0 && !Mentions(pattern, name);
        if !Consistent(pattern, name, false) {
          MatchKeeps(pattern[1..], target[count..], code, b, name);
        }
      }
    } else {
      SearchIsInstance(pattern, target, code, b, count + 1, checked);
    }
  }

  lemma SteadyBehindGroup(pattern: seq<Token>, b: Bindings, current: Bindings, checked: iset<string>)
    requires pattern != [] && pattern[0].kind == Group && Steady(pattern, b, checked) && forall v | v in b :: v in current
    ensures Steady(pattern[0].children, b, checked) && Steady(pattern[1..], current, checked)
  {
  }

  lemma {:induction false} GroupIsInstance(pattern: seq<Token>, target: seq<Token>, code: string, b: Bindings, checked: iset<string>)
    requires pattern != [] && target != [] && pattern[0].kind == Group && target[0].kind == Group
    requires Apart(pattern) && Steady(pattern, b, checked) && MatchSeq(pattern, target, code, b).Matched?
    ensures var m := MatchSeq(pattern, target, code, b);
            Instance(pattern, target[..m.consumed], code, m.bindings, m.captures, checked)
    decreases pattern, 0
  {
    var m := MatchSeq(pattern, target, code, b);
    var p, t := pattern[0], target[0];
    var child := MatchSeq(p.children, t.children, code, b);
    var current := b + child.bindings;
    ApartParts(pattern);
    SteadyBehindGroup(pattern, b, current, checked);
    MatchIsInstance(p.children, t.children, code, b, checked);
    MatchIsInstance(pattern[1..], target[1..], code, current, checked);
    BindingsGrow(p.children, t.children, code, b);
    BindingsGrow(pattern[1..], target[1..], code, current);
    assert t.children[..child.consumed] == t.children;
    assert target[..m.consumed][1..] == target[1..][..m.consumed - 1];
    forall v | Needs(p.children, v, checked)
      ensures Agree(child.bindings, m.bindings, v)
    {
      GroupBindingStays(pattern, target, code, b, checked, v);
    }
    InstanceDepends(p.children, t.children, code, child.bindings, m.bindings, child.captures, checked);
  }

  /** What a group binds, what follows does not change. */
  lemma GroupBindingStays(pattern: seq<Token>, target: seq<Token>, code: string, b: Bindings, checked: iset<string>, v: string)
    requires pattern != [] && target != [] && pattern[0].kind == Group && target[0].kind == Group
    requires Apart(pattern) && Steady(pattern, b, checked) && MatchSeq(pattern, target, code, b).Matched?
    requires Needs(pattern[0].children, v, checked)
    ensures Agree(MatchSeq(pattern[0].children, target[0].children, code, b).bindings, MatchSeq(pattern, target, code, b).bindings, v)
  {
    var child := MatchSeq(pattern[0].children, target[0].children, code, b);
    var current := b + child.bindings;
    BindingsGrow(pattern[1..], target[1..], code, current);
    if Mentions(pattern[0].children, v) {
      assert Mentions(pattern, v);
      assert Occurrences(pattern[1..], v) == 0;
    } else if v in child.bindings && Occurrences(pattern[1..], v) > 0 {
      MatchKeeps(pattern[1..], target[1..], code, current, v);
    }
  }

  lemma SteadyBehindElement(pattern: seq<Token>, b: Bindings, current: Bindings, checked: iset<string>)
    requires pattern != [] && pattern[0].kind != MultiMetavar && Steady(pattern, b, checked) && forall v | v in b :: v in current
    ensures Steady(pattern[1..], current, checked)
  {
  }

  lemma {:induction false} ElementIsInstance(pattern: seq<Token>, target: seq<Token>, code: string, b: Bindings, checked: iset<string>)
    requires pattern != [] && target != [] && pattern[0].kind != MultiMetavar && !(pattern[0].kind == Group && target[0].kind == Group)
    requires Apart(pattern) && Steady(pattern, b, checked) && MatchSeq(pattern, target, code, b).Matched?
    ensures var m := MatchSeq(pattern, target, code, b);
            Instance(pattern, target[..m.consumed], code, m.bindings, m.captures, checked)
    decreases pattern, 0
  {
    var m := MatchSeq(pattern, target, code, b);
    var p := pattern[0];
    ApartParts(pattern);
    SteadyBehindElement(pattern, b, Bind(p, target[0], code, b), checked);
    MatchIsInstance(pattern[1..], target[1..], code, Bind(p, target[0], code, b), checked);
    BindingsGrow(pattern[1..], target[1..], code, Bind(p, target[0], code, b));
    assert target[..m.consumed][1..] == target[1..][..m.consumed - 1];
    if p.kind == Metavar && p.value != ANONYMOUS {
      assert Mentions(pattern, p.value);
      assert Occurrences(pattern[1..], p.value) == 0;
    }
  }

  lemma SubPatterns(pattern: seq<Token>, checked: iset<string>)
    requires pattern != [] && Apart(pattern) && Once(pattern, checked)
    ensures Apart(pattern[1..]) && Once(pattern[1..], checked)
    ensures pattern[0].kind == Group ==> Apart(pattern[0].children) && Once(pattern[0].children, checked)
  {
    ApartParts(pattern);
    forall v
      ensures Occurrences(pattern[1..], v) <= Occurrences(pattern, v)
      ensures pattern[0].kind == Group ==> Occurrences(pattern[0].children, v) <= Occurrences(pattern, v)
    {
    }
  }

  /** A sequence metavariable in last position takes the rest. */
  lemma {:induction false} TrailingTakesTheRest(pattern: seq<Token>, target: seq<Token>, code: string, b: Bindings)
    requires pattern != [] && pattern[|pattern| - 1].kind == MultiMetavar && MatchSeq(pattern, target, code, b).Matched?
    ensures MatchSeq(pattern, target, code, b).consumed == |target|
    decreases |pattern|, |target| + 1
  {
    if |pattern| > 1 {
      assert pattern[1..][|pattern| - 2] == pattern[|pattern| - 1];
      if pattern[0].kind == MultiMetavar {
        TrailingSearch(pattern, target, code, b, 0);
      } else if pattern[0].kind == Group && target[0].kind == Group {
        TrailingTakesTheRest(pattern[1..], target[1..], code, b + MatchSeq(pattern[0].children, target[0].children, code, b).bindings);
      } else {
        TrailingTakesTheRest(pattern[1..], target[1..], code, Bind(pattern[0], target[0], code, b));
      }
    }
  }

  /** Alone it takes all tokens or none. With none it is bound to nothing, whatever it was bound to before; else to the
      source text from the first to the last of them, and only if it is not bound to another text already. */
  lemma LastTakes(p: Token, target: seq<Token>, code: string, b: Bindings)
    requires p.kind == MultiMetavar
    ensures target == [] ==> MatchSeq([p], target, code, b) == Matched(0, b[p.value := ""], [])
    ensures target != [] ==>
              (var text := Slice(code, target[0].start, target[|target| - 1].end);
               MatchSeq([p], target, code, b)
               == if p.value !in b || b[p.value] == text then Matched(|target|, b[p.value := text], []) else NoMatch)
  {
  }

  lemma {:induction false} TrailingSearch(pattern: seq<Token>, target: seq<Token>, code: string, b: Bindings, count: nat)
    requires |pattern| > 1 && pattern[0].kind == MultiMetavar && pattern[|pattern| - 1].kind == MultiMetavar
    requires Search(pattern, target, code, b, count).Matched?
    ensures Search(pattern, target, code, b, count).consumed == |target|
    decreases |pattern|, if count <= |target| then |target| - count else 0
  {
    var rest := MatchSeq(pattern[1..], target[count..], code, b);
    if rest.Matched? && (pattern[0].value !in b || b[pattern[0].value] == RunText(code, target[..count])) {
      assert pattern[1..][|pattern| - 2] == pattern[|pattern| - 1];
      TrailingTakesTheRest(pattern[1..], target[count..], code, b);
    } else {
      TrailingSearch(pattern, target, code, b, count + 1);
    }
  }

  // ---------------------------------------------------------------------------------------------
  // Completeness

  ghost const EVERY: iset<string> := iset v: string | true

  /** Sequence metavariables occur only in last position, at this level and in every group. */
  predicate LastOnly(pattern: seq<Token>) {
    pattern == [] ||
    (&& (pattern[0].kind == MultiMetavar ==> |pattern| == 1)
     && (pattern[0].kind == Group ==> LastOnly(pattern[0].children))
     && LastOnly(pattern[1..]))
  }

  /** Inside groups, sequence metavariables occur only in last position. */
  predicate Restricted(pattern: seq<Token>) {
    pattern == [] || ((pattern[0].kind == Group ==> LastOnly(pattern[0].children)) && Restricted(pattern[1..]))
  }

  ghost predicate Extends(sigma: Bindings, b: Bindings) {
    forall v | v in b :: v in sigma && sigma[v] == b[v]
  }

  ghost predicate Unbound(pattern: seq<Token>, b: Bindings) {
    forall v | v in b :: Occurrences(pattern, v) == 0
  }

  ghost predicate Ready(pattern: seq<Token>, b: Bindings) {
    Apart(pattern) && Once(pattern, EVERY) && Unbound(pattern, b)
  }

  lemma ReadyRest(pattern: seq<Token>, b: Bindings)
    requires pattern != [] && Ready(pattern, b)
    ensures Ready(pattern[1..], b)
    ensures pattern[0].kind == Group ==> Ready(pattern[0].children, b)
  {
    SubPatterns(pattern, EVERY);
  }

  lemma ReadyAfterGroup(pattern: seq<Token>, target: seq<Token>, code: string, b: Bindings)
    requires pattern != [] && pattern[0].kind == Group && Ready(pattern, b)
    requires MatchSeq(pattern[0].children, target, code, b).Matched?
    ensures Ready(pattern[1..], b + MatchSeq(pattern[0].children, target, code, b).bindings)
  {
    ReadyRest(pattern, b);
    BindingsGrow(pattern[0].children, target, code, b);
    forall v | v in b + MatchSeq(pattern[0].children, target, code, b).bindings
      ensures Occurrences(pattern[1..], v) == 0
    {
      assert Occurrences(pattern, v) == Occurrences(pattern[0].children, v) + Occurrences(pattern[1..], v);
      assert Mentions(pattern[0].children, v) ==> Mentions(pattern, v);
      assert v in EVERY;
    }
  }

  lemma ReadyAfterBind(pattern: seq<Token>, t: Token, code: string, b: Bindings)
    requires pattern != [] && Ready(pattern, b)
    ensures Ready(pattern[1..], Bind(pattern[0], t, code, b))
  {
    ReadyRest(pattern, b);
    if pattern[0].kind == Metavar && pattern[0].value != ANONYMOUS {
      assert Mentions(pattern, pattern[0].value);
    }
  }

  /** Where sequence metavariables come last, an instance is matched whole, within its own bindings. */
  lemma {:induction false} InstanceIsMatched(
    pattern: seq<Token>, target: seq<Token>, code: string, b: Bindings, sigma: Bindings, captures: seq<nat>)
    requires LastOnly(pattern) && Ready(pattern, b) && Extends(sigma, b)
    requires Instance(pattern, target, code, sigma, captures, EVERY)
    ensures var m := MatchSeq(pattern, target, code, b);
            m.Matched? && m.consumed == |target| && Extends(sigma, m.bindings)
    decreases pattern
  {
    if pattern != [] {
      var p := pattern[0];
      ReadyRest(pattern, b);
      if p.kind == MultiMetavar {
        assert p.value in EVERY && Occurrences(pattern, p.value) > 0;
      } else if p.kind == Group && target[0].kind == Group {
        var inner :| Instance(p.children, target[0].children, code, sigma, inner, EVERY);
        InstanceIsMatched(p.children, target[0].children, code, b, sigma, inner);
        ReadyAfterGroup(pattern, target[0].children, code, b);
        InstanceIsMatched(pattern[1..], target[1..], code,
                          b + MatchSeq(p.children, target[0].children, code, b).bindings, sigma, captures);
      } else {
        ReadyAfterBind(pattern, target[0], code, b);
        InstanceIsMatched(pattern[1..], target[1..], code, Bind(p, target[0], code, b), sigma, captures);
      }
    }
  }

  /** Lexicographic order on capture lengths. */
  predicate NoLonger(a: seq<nat>, b: seq<nat>) {
    a == [] || (b != [] && (a[0] < b[0] || (a[0] == b[0] && NoLonger(a[1..], b[1..]))))
  }

  /** Sequence metavariables of this level that are not last. */
  function InnerSequences(pattern: seq<Token>): nat {
    if |pattern| <= 1 then 0 else (if pattern[0].kind == MultiMetavar then 1 else 0) + InnerSequences(pattern[1..])
  }

  lemma {:induction false} CapturesOfInstance(
    pattern: seq<Token>, target: seq<Token>, code: string, sigma: Bindings, captures: seq<nat>, checked: iset<string>)
    requires Instance(pattern, target, code, sigma, captures, checked)
    ensures |captures| == InnerSequences(pattern)
    decreases pattern
  {
    if pattern != [] {
      if pattern[0].kind == MultiMetavar {
        if |pattern| > 1 {
          CapturesOfInstance(pattern[1..], target[captures[0]..], code, sigma, captures[1..], checked);
        }
      } else {
        CapturesOfInstance(pattern[1..], target[1..], code, sigma, captures, checked);
      }
    }
  }

  lemma {:induction false} CapturesOfMatch(pattern: seq<Token>, target: seq<Token>, code: string, b: Bindings)
    requires MatchSeq(pattern, target, code, b).Matched?
    ensures |MatchSeq(pattern, target, code, b).captures| == InnerSequences(pattern)
    decreases pattern, |target| + 1
  {
    if pattern != [] {
      var p := pattern[0];
      if p.kind == MultiMetavar {
        if |pattern| > 1 {
          CapturesOfSearch(pattern, target, code, b, 0);
        }
      } else if p.kind == Group && target[0].kind == Group {
        CapturesOfMatch(pattern[1..], target[1..], code, b + MatchSeq(p.children, target[0].children, code, b).bindings);
      } else {
        CapturesOfMatch(pattern[1..], target[1..], code, Bind(p, target[0], code, b));
      }
    }
  }

  lemma {:induction false} CapturesOfSearch(pattern: seq<Token>, target: seq<Token>, code: string, b: Bindings, count: nat)
    requires |pattern| > 1 && pattern[0].kind == MultiMetavar && Search(pattern, target, code, b, count).Matched?
    ensures |Search(pattern, target, code, b, count).captures| == InnerSequences(pattern)
    decreases pattern, if count <= |target| then |target| - count else 0
  {
    var rest := MatchSeq(pattern[1..], target[count..], code, b);
    if rest.Matched? && (pattern[0].value !in b || b[pattern[0].value] == RunText(code, target[..count])) {
      CapturesOfMatch(pattern[1..], target[count..], code, b);
    } else {
      CapturesOfSearch(pattern, target, code, b, count + 1);
    }
  }

  /** Whenever some prefix of the target is an instance, the matcher succeeds, with captures no longer
      than those of that instance, in lexicographic order. */
  lemma {:induction false} FindsNoLonger(
    pattern: seq<Token>, target: seq<Token>, n: nat, code: string, b: Bindings, sigma: Bindings, captures: seq<nat>)
    requires Restricted(pattern) && Ready(pattern, b) && Extends(sigma, b) && n <= |target|
    requires Instance(pattern, target[..n], code, sigma, captures, EVERY)
    ensures MatchSeq(pattern, target, code, b).Matched?
    ensures NoLonger(MatchSeq(pattern, target, code, b).captures, captures)
    decreases pattern, |target| + 1
  {
    if pattern != [] {
      var p := pattern[0];
      ReadyRest(pattern, b);
      if p.kind == MultiMetavar {
        assert Occurrences(pattern, p.value) > 0;
        if |pattern| > 1 {
          SequenceFinds(pattern, target, n, code, b, sigma, captures);
        }
      } else {
        assert target[..n][1..] == target[1..][..n - 1];
        if p.kind == Group && target[0].kind == Group {
          GroupFinds(pattern, target, n, code, b, sigma, captures);
        } else {
          ReadyAfterBind(pattern, target[0], code, b);
          FindsNoLonger(pattern[1..], target[1..], n - 1, code, Bind(p, target[0], code, b), sigma, captures);
        }
      }
    }
  }

  lemma {:induction false} SequenceFinds(
    pattern: seq<Token>, target: seq<Token>, n: nat, code: string, b: Bindings, sigma: Bindings, captures: seq<nat>)
    requires |pattern| > 1 && pattern[0].kind == MultiMetavar && pattern[0].value !in b && n <= |target|
    requires Restricted(pattern) && Ready(pattern, b) && Extends(sigma, b)
    requires Instance(pattern, target[..n], code, sigma, captures, EVERY)
    ensures Search(pattern, target, code, b, 0).Matched?
    ensures NoLonger(Search(pattern, target, code, b, 0).captures, captures)
    decreases pattern, 0
  {
    ReadyRest(pattern, b);
    assert target[..n][captures[0]..] == target[captures[0]..][..n - captures[0]];
    FindsNoLonger(pattern[1..], target[captures[0]..], n - captures[0], code, b, sigma, captures[1..]);
    SearchFinds(pattern, target, code, b, 0, captures);
  }

  lemma {:induction false} GroupFinds(
    pattern: seq<Token>, target: seq<Token>, n: nat, code: string, b: Bindings, sigma: Bindings, captures: seq<nat>)
    requires pattern != [] && 0 < n <= |target| && pattern[0].kind == Group && target[0].kind == Group
    requires Restricted(pattern) && Ready(pattern, b) && Extends(sigma, b)
    requires Instance(pattern, target[..n], code, sigma, captures, EVERY)
    ensures MatchSeq(pattern, target, code, b).Matched?
    ensures NoLonger(MatchSeq(pattern, target, code, b).captures, captures)
    decreases pattern, 0
  {
    var p, t := pattern[0], target[0];
    assert target[..n][0] == t && target[..n][1..] == target[1..][..n - 1];
    var inner :| Instance(p.children, t.children, code, sigma, inner, EVERY);
    ReadyRest(pattern, b);
    InstanceIsMatched(p.children, t.children, code, b, sigma, inner);
    ReadyAfterGroup(pattern, t.children, code, b);
    FindsNoLonger(pattern[1..], target[1..], n - 1, code, b + MatchSeq(p.children, t.children, code, b).bindings, sigma, captures);
  }

  lemma {:induction false} SearchFinds(pattern: seq<Token>, target: seq<Token>, code: string, b: Bindings, count: nat, captures: seq<nat>)
    requires |pattern| > 1 && captures != [] && count <= captures[0] <= |target| && pattern[0].value !in b
    requires MatchSeq(pattern[1..], target[captures[0]..], code, b).Matched?
    requires NoLonger(MatchSeq(pattern[1..], target[captures[0]..], code, b).captures, captures[1..])
    ensures Search(pattern, target, code, b, count).Matched?
    ensures NoLonger(Search(pattern, target, code, b, count).captures, captures)
    decreases |target| - count
  {
    var rest := MatchSeq(pattern[1..], target[count..], code, b);
    if rest.Matched? {
      assert ([count] + rest.captures)[1..] == rest.captures;
    } else {
      SearchFinds(pattern, target, code, b, count + 1, captures);
    }
  }

  /** And it captures just as many runs: one for every sequence metavariable of this level but a last one. */
  lemma MatcherFinds(
    pattern: seq<Token>, target: seq<Token>, n: nat, code: string, b: Bindings, sigma: Bindings, captures: seq<nat>)
    requires Restricted(pattern) && Ready(pattern, b) && Extends(sigma, b) && n <= |target|
    requires Instance(pattern, target[..n], code, sigma, captures, EVERY)
    ensures MatchSeq(pattern, target, code, b).Matched?
    ensures |MatchSeq(pattern, target, code, b).captures| == |captures| == InnerSequences(pattern)
    ensures NoLonger(MatchSeq(pattern, target, code, b).captures, captures)
  {
    FindsNoLonger(pattern, target, n, code, b, sigma, captures);
    CapturesOfMatch(pattern, target, code, b);
    CapturesOfInstance(pattern, target[..n], code, sigma, captures, EVERY);
  }

  /** For restricted patterns whose sequence metavariables have different names, a match from scratch
      succeeds exactly when some prefix of the target is an instance of the pattern. */
  lemma MatchesIffInstance(pattern: seq<Token>, target: seq<Token>, code: string)
    requires Restricted(pattern) && Apart(pattern) && Once(pattern, EVERY)
    ensures MatchSeq(pattern, target, code, map[]).Matched? <==>
            exists n: nat, sigma, captures :: n <= |target| && Instance(pattern, target[..n], code, sigma, captures, EVERY)
  {
    var m := MatchSeq(pattern, target, code, map[]);
    if m.Matched? {
      OnceIsSteady(pattern, map[], EVERY);
      MatchIsInstance(pattern, target, code, map[], EVERY);
      assert Instance(pattern, target[..m.consumed], code, m.bindings, m.captures, EVERY);
    }
    if exists n: nat, sigma, captures :: n <= |target| && Instance(pattern, target[..n], code, sigma, captures, EVERY) {
      var n: nat, sigma, captures :| n <= |target| && Instance(pattern, target[..n], code, sigma, captures, EVERY);
      MatcherFinds(pattern, target, n, code, map[], sigma, captures);
    }
  }

  // ---------------------------------------------------------------------------------------------
  // Where the preconditions are needed

  /** A sequence metavariable that occurs twice is not checked for consistency: `$$$A $$$A` matches any
      token `x`, and reports a binding that does not fit both occurrences. */
  lemma RepeatedNameIsNotChecked(a: Token, x: Token, code: string)
    requires a.kind == MultiMetavar && Slice(code, x.start, x.end) != ""
    ensures MatchSeq([a, a], [x], code, map[]) == Matched(1, map[a.value := Slice(code, x.start, x.end)], [0])
    ensures forall captures :: !Instance([a, a], [x], code, map[a.value := Slice(code, x.start, x.end)], captures, EVERY)
  {
    var text := RunText(code, [x]);
    assert [a, a][1..] == [a] && [a][1..] == [];
    assert [x][0..] == [x] && [x][..0] == [] && [x][1..] == [] && [x][..1] == [x];
    assert MatchSeq([a], [x], code, map[]) == MatchRest(a.value, [x], code, map[]);
    assert map[a.value := ""] + map[a.value := text] == map[a.value := text];
    assert [0] + [] == [0];
    forall captures
      ensures !Instance([a, a], [x], code, map[a.value := text], captures, EVERY)
    {
      assert a.value in EVERY;
    }
  }

  /** The matcher does not go back into a group: `($$$A x)` does not match `(x x)`, which is an instance
      of it with `$$$A` standing for the first `x`. */
  lemma GroupIsNotRetried(g: Token, h: Token, a: Token, x: Token, y: Token, z: Token, code: string)
    requires a.kind == MultiMetavar && x.kind == Ident && y.value == z.value == x.value
    requires g.kind == Group && h.kind == Group && g.value == h.value && g.children == [a, x] && h.children == [y, z]
    ensures MatchSeq([g], [h], code, map[]) == NoMatch
    ensures Instance([g], [h], code, map[a.value := Slice(code, y.start, y.end)], [], EVERY)
  {
    assert [a, x][1..] == [x] && [x][1..] == [] && [y, z][0..] == [y, z] && [y, z][..0] == [] && [y, z][1..] == [z];
    assert [z][1..] == [] && [y, z][..1] == [y] && [g][1..] == [] && [h][1..] == [] && [1][1..] == [];
    assert MatchSeq([x], [y, z], code, map[]) == Longer(MatchSeq([], [z], code, map[]), 1);
    assert Search([a, x], [y, z], code, map[], 0).consumed == 1;
    assert MatchSeq([a, x], [y, z], code, map[]).consumed == 1;
    var sigma := map[a.value := RunText(code, [y])];
    assert Instance([], [], code, sigma, [], EVERY);
    assert Instance([x], [z], code, sigma, [], EVERY);
    assert Instance([a, x], [y, z], code, sigma, [1], EVERY);
  }
}
