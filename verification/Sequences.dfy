/** Rearrangements of concatenations. */
module Sequences {
  lemma Associate<T>(a: seq<T>, b: seq<T>, c: seq<T>)
    ensures a + (b + c) == a + b + c
  {
  }

  lemma MoveOne<T>(s: seq<T>, x: T, rest: seq<T>)
    ensures s + ([x] + rest) == s + [x] + rest
  {
  }

  /** Pieces put together. */
  function Joined<T>(chunks: seq<seq<T>>): seq<T> {
    if chunks == [] then [] else chunks[0] + Joined(chunks[1..])
  }

  /** These are the chosen numbers in ascending order. */
  ghost predicate Lists(at: seq<nat>, chosen: set<nat>) {
    Rises(at) && forall i :: i in at <==> i in chosen
  }

  ghost predicate Rises(s: seq<nat>) { forall i, j | 0 <= i < j < |s| :: s[i] < s[j] }

  /** One number more, behind all others. */
  lemma ListsMore(at: seq<nat>, chosen: set<nat>, n: nat)
    requires Lists(at, chosen) && forall i | i in chosen :: i < n
    ensures Lists(at + [n], chosen + {n})
  {
    var more := at + [n];
    assert forall i | 0 <= i < |at| :: at[i] in at;
    forall i
      ensures i in more <==> i in at || i == n
    {
      if i == n {
        assert more[|at|] == n;
      }
    }
  }
}
