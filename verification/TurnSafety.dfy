/** Every transition of the agent loop keeps the history well paired and the books straight, over whole
    runs; and where exactly that stops being true. */
module TurnSafety {
  import opened Sequences
  import opened Options
  import opened Conversation
  import opened Compaction
  import opened MessageTable
  import opened AgentTurn

  // ---------------------------------------------------------------------------------------------
  // Pushing messages

  lemma {:induction false} NumbersOfNew(ms: seq<ContextMessage>, ref: nat, n: nat, lost: set<nat>)
    requires forall x | x in lost :: x < n
    ensures Survivors(n, lost) + Numbers(NewCells(ms, ref, n)) == Survivors(n + |ms|, lost)
  {
    if ms != [] {
      var k := |ms| - 1;
      var front, last := NewCells(ms[..k], ref, n), Cell(ref + k, Said(n + k), ms[k]);
      NumbersOfNew(ms[..k], ref, n, lost);
      assert NewCells(ms, ref, n) == front + [last];
      NumbersAppend(front, [last]);
      assert Numbers([last]) == [n + k];
    }
  }

  ghost predicate Speakable(ms: seq<ContextMessage>) {
    forall m | m in ms :: m.role != System
  }

  lemma SayAccounts(t: Turn, ms: seq<ContextMessage>)
    requires DistinctRefs(t) && Accounted(t)
    ensures Accounted(Say(t, ms))
    ensures Fresh(Say(t, ms).cells, t.persisted) == Fresh(t.cells, t.persisted) + NewCells(ms, t.nextRef, |t.spoken|)
  {
    var added := NewCells(ms, t.nextRef, |t.spoken|);
    FreshAppend(t.cells, added, t.persisted);
    FreshAll(added, t.persisted);
    NumbersAppend(Fresh(t.cells, t.persisted), added);
    NumbersOfNew(ms, t.nextRef, |t.spoken|, t.lost);
  }

  lemma SayCells(t: Turn, ms: seq<ContextMessage>)
    requires Books(t) && Speakable(ms)
    ensures forall i | 0 <= i < |Say(t, ms).cells| :: GoodCell(Say(t, ms), Say(t, ms).cells[i])
    ensures Stored(Say(t, ms))
  {
    var u := Say(t, ms);
    forall i | 0 <= i < |u.cells|
      ensures GoodCell(u, u.cells[i])
    {
      if i < |t.cells| {
        assert GoodCell(t, t.cells[i]);
      } else {
        assert u.cells[i].msg == ms[i - |t.cells|] && ms[i - |t.cells|] in ms;
      }
    }
    forall i | 0 <= i < |u.saved|
      ensures GoodSave(u, u.saved[i])
    {
      assert GoodSave(t, t.saved[i]);
    }
  }

  lemma SayUniform(t: Turn, u: Turn, ms: seq<ContextMessage>)
    requires DistinctRefs(t) && Uniform(t.cells, t.persisted) && u == Say(t, ms) && (ms != [] ==> ms[0].role != Tool)
    ensures DistinctRefs(u) && Uniform(u.cells, u.persisted)
  {
    forall i | 1 <= i < |u.cells| && u.cells[i].msg.role == Tool
      ensures u.cells[i].ref in u.persisted <==> u.cells[i - 1].ref in u.persisted
    {
      if i < |t.cells| {
        assert u.cells[i] == t.cells[i] && u.cells[i - 1] == t.cells[i - 1];
      } else {
        assert i > |t.cells|;
      }
    }
  }

  lemma SayFormed(t: Turn, u: Turn, ms: seq<ContextMessage>)
    requires Formed(t) && u == Say(t, ms)
    ensures Formed(u)
  {
    forall n | 0 <= n < |u.spoken|
      ensures IsFormOf(u.forms[n], u.spoken[n])
    {
      assert n < |t.spoken| ==> IsFormOf(t.forms[n], t.spoken[n]);
    }
  }

  /** Pushing messages that do not open with a tool message keeps the books. */
  lemma SayKeepsBooks(t: Turn, ms: seq<ContextMessage>)
    requires Books(t) && Speakable(ms) && (ms != [] ==> ms[0].role != Tool)
    ensures Books(Say(t, ms))
  {
    SayAccounts(t, ms);
    SayCells(t, ms);
    SayUniform(t, Say(t, ms), ms);
    SayFormed(t, Say(t, ms), ms);
  }

  lemma MsgsAppend(a: seq<Cell>, b: seq<Cell>)
    ensures Msgs(a + b) == Msgs(a) + Msgs(b)
  {
  }

  lemma MsgsOfNew(ms: seq<ContextMessage>, ref: nat, n: nat)
    ensures Msgs(NewCells(ms, ref, n)) == ms
  {
  }

  lemma SayKeeps(t: Turn, ms: seq<ContextMessage>)
    requires Inv(t) && Speakable(ms) && WellPaired(ms)
    ensures Inv(Say(t, ms)) && (Presentable(t) ==> Presentable(Say(t, ms)))
  {
    var added, unsaved := NewCells(ms, t.nextRef, |t.spoken|), Fresh(t.cells, t.persisted);
    SayKeepsBooks(t, ms);
    SayAccounts(t, ms);
    MsgsOfNew(ms, t.nextRef, |t.spoken|);
    MsgsAppend(unsaved, added);
    PairedAppend(Msgs(unsaved), ms);
    if Presentable(t) {
      MsgsAppend(t.cells, added);
      PairedAppend(Msgs(t.cells), ms);
    }
  }

  lemma RemindKeeps(t: Turn, text: string)
    requires Inv(t)
    ensures Inv(Remind(t, text)) && (Presentable(t) ==> Presentable(Remind(t, text)))
  {
    var u, added := Remind(t, text), [Cell(t.nextRef, Ephemeral, Plain(User, Text(text)))];
    if Presentable(t) {
      MsgsAppend(t.cells, added);
      assert Msgs(added) == [Plain(User, Text(text))];
      BystandersArePaired(Msgs(added));
      PairedAppend(Msgs(t.cells), Msgs(added));
    }
    RemindFresh(t, u, added);
    RemindCells(t, u, added);
    RemindUniform(t, u, added);
    StoredWithout(t, u);
  }

  /** Marked at once, an ephemeral message is never among the unsaved ones. */
  lemma RemindFresh(t: Turn, u: Turn, added: seq<Cell>)
    requires DistinctRefs(t) && |added| == 1 && added[0].ref == t.nextRef
    requires u.cells == t.cells + added && u.persisted == t.persisted + {t.nextRef}
    ensures Fresh(u.cells, u.persisted) == Fresh(t.cells, t.persisted)
  {
    FreshAppend(t.cells, added, u.persisted);
    FreshNone(added, u.persisted);
    FreshSame(t.cells, t.persisted, u.persisted);
    assert Fresh(t.cells, t.persisted) + [] == Fresh(t.cells, t.persisted);
  }

  lemma RemindUniform(t: Turn, u: Turn, added: seq<Cell>)
    requires DistinctRefs(t) && Uniform(t.cells, t.persisted) && |added| == 1 && added[0].msg.role != Tool
    requires u.cells == t.cells + added && u.persisted == t.persisted + {t.nextRef}
    ensures Uniform(u.cells, u.persisted)
  {
    forall i | 1 <= i < |u.cells| && u.cells[i].msg.role == Tool
      ensures u.cells[i].ref in u.persisted <==> u.cells[i - 1].ref in u.persisted
    {
      assert u.cells[i] == t.cells[i] && u.cells[i - 1] == t.cells[i - 1];
    }
  }

  lemma RemindCells(t: Turn, u: Turn, added: seq<Cell>)
    requires Books(t) && |added| == 1 && added[0] == Cell(t.nextRef, Ephemeral, added[0].msg)
    requires u == t.(cells := t.cells + added, persisted := t.persisted + {t.nextRef}, nextRef := t.nextRef + 1)
    ensures DistinctRefs(u) && forall i | 0 <= i < |u.cells| :: GoodCell(u, u.cells[i])
  {
    forall i | 0 <= i < |u.cells|
      ensures GoodCell(u, u.cells[i])
    {
      assert if i < |t.cells| then u.cells[i] == t.cells[i] && GoodCell(t, t.cells[i]) else u.cells[i] == added[0];
    }
  }

  /** Saved cells stay good as long as the forms of their messages stand. */
  lemma StoredWithout(t: Turn, u: Turn)
    requires Stored(t) && u.saved == t.saved && u.rows == t.rows && |t.forms| <= |u.forms|
    requires forall i | 0 <= i < |t.saved| && GoodSave(t, t.saved[i]) :: u.forms[t.saved[i].origin.n] == t.forms[t.saved[i].origin.n]
    ensures Stored(u)
  {
    forall i | 0 <= i < |u.saved|
      ensures GoodSave(u, u.saved[i])
    {
      assert GoodSave(t, t.saved[i]);
    }
  }

  // ---------------------------------------------------------------------------------------------
  // Saving

  lemma PairedIsClosed(ms: seq<ContextMessage>)
    requires WellPaired(ms)
    ensures Closed(ms, [], {}) == ms
  {
    ClosedAfterPaired(ms, [], [], 0, {});
    assert ms + [] == ms;
  }

  lemma {:induction false} NonSystemMember(cells: seq<Cell>, c: Cell)
    ensures c in NonSystem(cells) <==> c in cells && c.msg.role != System
  {
    if cells != [] {
      NonSystemMember(cells[1..], c);
      assert c in cells <==> c == cells[0] || c in cells[1..];
    }
  }

  lemma {:induction false} NonSystemNumbers(cells: seq<Cell>)
    requires forall i | 0 <= i < |cells| && cells[i].origin.Said? :: cells[i].msg.role != System
    ensures Numbers(NonSystem(cells)) == Numbers(cells)
  {
    if cells != [] {
      NonSystemNumbers(cells[1..]);
      if cells[0].msg.role != System {
        assert NonSystem(cells)[1..] == NonSystem(cells[1..]);
      }
    }
  }

  /** The unsaved cells a save writes are the turn's own. */
  lemma UnsavedAreSaid(t: Turn)
    requires forall i | 0 <= i < |t.cells| :: GoodCell(t, t.cells[i])
    ensures forall i | 0 <= i < |NonSystem(Fresh(t.cells, t.persisted))| ::
              GoodSave(t, NonSystem(Fresh(t.cells, t.persisted))[i])
    ensures Numbers(NonSystem(Fresh(t.cells, t.persisted))) == Numbers(Fresh(t.cells, t.persisted))
  {
    var unsaved := Fresh(t.cells, t.persisted);
    forall c | c in unsaved
      ensures c.ref !in t.persisted && GoodCell(t, c)
    {
      FreshMember(t.cells, t.persisted, c);
      var i :| 0 <= i < |t.cells| && t.cells[i] == c;
      assert GoodCell(t, t.cells[i]);
    }
    forall i | 0 <= i < |NonSystem(unsaved)|
      ensures GoodSave(t, NonSystem(unsaved)[i])
    {
      NonSystemMember(unsaved, NonSystem(unsaved)[i]);
    }
    forall i | 0 <= i < |unsaved| && unsaved[i].origin.Said?
      ensures unsaved[i].msg.role != System
    {
      assert unsaved[i] in unsaved;
    }
    NonSystemNumbers(unsaved);
  }

  lemma StoredFormsAppend(a: seq<ContextMessage>, b: seq<ContextMessage>)
    ensures StoredForms(a + b) == StoredForms(a) + StoredForms(b)
  {
  }

  /** Writing the unsaved messages of a paired history: the rows stay paired and are complete. */
  lemma WriteKeeps(t: Turn)
    requires Inv(t)
    ensures var u := WriteRows(t, Msgs(Fresh(t.cells, t.persisted)));
            Stored(u) && Numbers(u.saved) == Survivors(|t.spoken|, t.lost)
  {
    var unsaved := Fresh(t.cells, t.persisted);
    var own := NonSystem(unsaved);
    UnsavedAreSaid(t);
    NumbersAppend(t.saved, own);
    NonSystemMsgs(unsaved);
    OwedWithoutSystem(Msgs(unsaved), []);
    MsgsAppend(t.saved, own);
    PairedAppend(Msgs(t.saved), Msgs(own));
    StoredFormsAppend(Msgs(t.saved), Msgs(own));
  }

  lemma MarkedAreNotFresh(t: Turn)
    ensures Fresh(t.cells, t.persisted + Refs(Fresh(t.cells, t.persisted))) == []
    ensures forall i | 0 <= i < |t.cells| :: t.cells[i].ref in t.persisted + Refs(Fresh(t.cells, t.persisted))
  {
    forall i | 0 <= i < |t.cells|
      ensures t.cells[i].ref in t.persisted + Refs(Fresh(t.cells, t.persisted))
    {
      FreshMember(t.cells, t.persisted, t.cells[i]);
    }
    FreshNone(t.cells, t.persisted + Refs(Fresh(t.cells, t.persisted)));
  }

  lemma FreshRefs(t: Turn)
    requires DistinctRefs(t)
    ensures forall r | r in Refs(Fresh(t.cells, t.persisted)) :: r < t.nextRef
  {
    forall c | c in Fresh(t.cells, t.persisted)
      ensures c.ref < t.nextRef
    {
      FreshMember(t.cells, t.persisted, c);
    }
  }

  /** A step-wise save keeps everything and leaves nothing unsaved. */
  lemma PersistKeeps(t: Turn)
    requires Inv(t)
    ensures Inv(Persist(t))
    ensures !t.nested ==> Numbers(Persist(t).saved) == Survivors(|t.spoken|, t.lost)
    ensures !t.nested ==> Fresh(Persist(t).cells, Persist(t).persisted) == []
  {
    if !t.nested {
      var unsaved := Fresh(t.cells, t.persisted);
      var u := Persist(t);
      PairedIsClosed(Msgs(unsaved));
      WriteKeeps(t);
      MarkedAreNotFresh(t);
      FreshRefs(t);
      assert Accounted(u) by {
        assert Numbers(u.saved) + [] == Numbers(u.saved);
      }
      forall i | 0 <= i < |u.cells|
        ensures GoodCell(u, u.cells[i])
      {
        assert GoodCell(t, t.cells[i]);
      }
      assert Stored(u) by {
        var w := WriteRows(t, Msgs(unsaved));
        forall i | 0 <= i < |u.saved|
          ensures GoodSave(u, u.saved[i])
        {
          assert GoodSave(w, w.saved[i]);
        }
      }
    }
  }

  // ---------------------------------------------------------------------------------------------
  // Compaction

  lemma {:induction false} SurvivorsMember(n: nat, lost: set<nat>, x: nat)
    ensures x in Survivors(n, lost) <==> x < n && x !in lost
  {
    if n > 0 {
      SurvivorsMember(n - 1, lost, x);
    }
  }

  ghost predicate Increasing(s: seq<nat>) {
    forall i, j | 0 <= i < j < |s| :: s[i] < s[j]
  }

  lemma {:induction false} SurvivorsIncrease(n: nat, lost: set<nat>)
    ensures Increasing(Survivors(n, lost))
  {
    if n > 0 {
      SurvivorsIncrease(n - 1, lost);
      var s := Survivors(n - 1, lost);
      forall i | 0 <= i < |s|
        ensures s[i] < n - 1
      {
        SurvivorsMember(n - 1, lost, s[i]);
      }
    }
  }

  function Except(s: seq<nat>, dropped: set<nat>): seq<nat> {
    if s == [] then []
    else
      var n := |s| - 1;
      if s[n] in dropped then Except(s[..n], dropped) else Except(s[..n], dropped) + [s[n]]
  }

  lemma {:induction false} SurvivorsExcept(n: nat, lost: set<nat>, dropped: set<nat>)
    ensures Survivors(n, lost + dropped) == Except(Survivors(n, lost), dropped)
  {
    if n > 0 {
      SurvivorsExcept(n - 1, lost, dropped);
      if n - 1 !in lost {
        assert Survivors(n, lost)[..|Survivors(n, lost)| - 1] == Survivors(n - 1, lost);
      }
    }
  }

  lemma {:induction false} ExceptAppend(a: seq<nat>, b: seq<nat>, dropped: set<nat>)
    ensures Except(a + b, dropped) == Except(a, dropped) + Except(b, dropped)
  {
    if b == [] {
      assert a + b == a;
    } else {
      var n := |b| - 1;
      ExceptAppend(a, b[..n], dropped);
      assert (a + b)[..|a + b| - 1] == a + b[..n] && (a + b)[|a + b| - 1] == b[n];
    }
  }

  lemma {:induction false} ExceptNone(s: seq<nat>, dropped: set<nat>)
    requires forall i | 0 <= i < |s| :: s[i] !in dropped
    ensures Except(s, dropped) == s
  {
    if s != [] {
      ExceptNone(s[..|s| - 1], dropped);
    }
  }

  lemma {:induction false} ExceptAll(s: seq<nat>, dropped: set<nat>)
    requires forall i | 0 <= i < |s| :: s[i] in dropped
    ensures Except(s, dropped) == []
  {
    if s != [] {
      ExceptAll(s[..|s| - 1], dropped);
    }
  }

  lemma IncreasingParts(a: seq<nat>, b: seq<nat>, c: seq<nat>)
    requires Increasing(a + b + c)
    ensures forall i | 0 <= i < |a| :: a[i] !in b
    ensures forall i | 0 <= i < |c| :: c[i] !in b
  {
    var s := a + b + c;
    forall i, j | 0 <= i < |a| && 0 <= j < |b|
      ensures a[i] != b[j]
    {
      assert s[i] < s[|a| + j];
    }
    forall i, j | 0 <= i < |c| && 0 <= j < |b|
      ensures c[i] != b[j]
    {
      assert s[|a| + j] < s[|a| + |b| + i];
    }
  }

  /** Declaring the middle part lost leaves the outer parts. */
  lemma DropSurvivors(n: nat, lost: set<nat>, a: seq<nat>, b: seq<nat>, c: seq<nat>)
    requires Survivors(n, lost) == a + b + c
    ensures Survivors(n, lost + set x | x in b) == a + c
  {
    var dropped := set x | x in b;
    SurvivorsIncrease(n, lost);
    IncreasingParts(a, b, c);
    SurvivorsExcept(n, lost, dropped);
    ExceptAppend(a + b, c, dropped);
    ExceptAppend(a, b, dropped);
    ExceptNone(a, dropped);
    ExceptAll(b, dropped);
    ExceptNone(c, dropped);
    assert a + [] + c == a + c;
  }

  lemma CellsAround(cells: seq<Cell>, h: nat, c: nat, persisted: set<nat>)
    requires h <= c <= |cells|
    ensures Fresh(cells, persisted)
         == Fresh(cells[..h], persisted) + Fresh(cells[h..c], persisted) + Fresh(cells[c..], persisted)
  {
    assert cells == cells[..h] + cells[h..c] + cells[c..];
    FreshAppend(cells[..h] + cells[h..c], cells[c..], persisted);
    FreshAppend(cells[..h], cells[h..c], persisted);
  }

  lemma FreshAroundSummary(a: seq<Cell>, s: Cell, b: seq<Cell>, persisted: set<nat>)
    requires s.ref !in persisted
    requires forall c | c in a || c in b :: c.ref != s.ref
    ensures Fresh(a + [s] + b, persisted + {s.ref}) == Fresh(a, persisted) + Fresh(b, persisted)
  {
    var p := persisted + {s.ref};
    FreshAppend(a + [s], b, p);
    FreshAppend(a, [s], p);
    FreshSame(a, p, persisted);
    FreshSame(b, p, persisted);
    FreshNone([s], p);
    assert Fresh(a, persisted) + [] == Fresh(a, persisted);
  }

  lemma EvictAccounts(t: Turn, h: nat, c: nat, summary: string)
    requires DistinctRefs(t) && Accounted(t) && h <= c <= |t.cells|
    ensures Accounted(Evict(t, h, c, summary))
  {
    var a, b := t.cells[..h], t.cells[c..];
    var fa, fe, fb := Fresh(a, t.persisted), Fresh(t.cells[h..c], t.persisted), Fresh(b, t.persisted);
    FreshAroundSummary(a, SummaryCell(t.nextRef, summary), b, t.persisted);
    NumbersAppend(fa, fb);
    EvictedNumbers(t, h, c, Numbers(fa), Numbers(fe), Numbers(fb));
    DropSurvivors(|t.spoken|, t.lost, Numbers(t.saved) + Numbers(fa), Numbers(fe), Numbers(fb));
    Associate(Numbers(t.saved), Numbers(fa), Numbers(fb));
  }

  /** The unsaved numbers, by the three parts of a cut; those of the middle part are still counted. */
  lemma EvictedNumbers(t: Turn, h: nat, c: nat, na: seq<nat>, ne: seq<nat>, nb: seq<nat>)
    requires Accounted(t) && h <= c <= |t.cells| && na == Numbers(Fresh(t.cells[..h], t.persisted))
    requires ne == Numbers(Fresh(t.cells[h..c], t.persisted)) && nb == Numbers(Fresh(t.cells[c..], t.persisted))
    ensures Numbers(t.saved) + na + ne + nb == Survivors(|t.spoken|, t.lost)
    ensures forall n | n in ne :: n < |t.spoken| && n !in t.lost
  {
    var fa, fe, fb := Fresh(t.cells[..h], t.persisted), Fresh(t.cells[h..c], t.persisted), Fresh(t.cells[c..], t.persisted);
    CellsAround(t.cells, h, c, t.persisted);
    NumbersAppend(fa + fe, fb);
    NumbersAppend(fa, fe);
    Associate(Numbers(t.saved), na + ne, nb);
    Associate(Numbers(t.saved), na, ne);
    MiddleSurvives(Numbers(t.saved) + na, ne, nb, |t.spoken|, t.lost);
  }

  lemma MiddleSurvives(a: seq<nat>, e: seq<nat>, b: seq<nat>, count: nat, lost: set<nat>)
    requires a + e + b == Survivors(count, lost)
    ensures forall n | n in e :: n < count && n !in lost
  {
    forall n | n in e
      ensures n < count && n !in lost
    {
      assert n in a + e + b;
      SurvivorsMember(count, lost, n);
    }
  }

  lemma SummarizePaired(t: Turn, preserveLastN: nat, summary: string)
    requires WellPaired(Msgs(t.cells))
    ensures WellPaired(Msgs(Summarize(t, preserveLastN, summary).cells))
  {
    var h, c := HeadLength(Msgs(t.cells)), CutPoint(Msgs(t.cells), preserveLastN);
    if c >= h + MIN_EVICTED {
      var s := SummaryCell(t.nextRef, summary);
      SummaryKeepsPairing(Msgs(t.cells), preserveLastN, s.msg);
      assert Msgs(t.cells[..h] + [s] + t.cells[c..]) == Msgs(t.cells)[..h] + [s.msg] + Msgs(t.cells)[c..];
    }
  }

  /** Behind the summary, cell `i` is the old cell `i + shift`. */
  lemma EvictShifts(t: Turn, u: Turn, h: nat, c: nat, summary: string, shift: int)
    requires h < c <= |t.cells| && u == Evict(t, h, c, summary) && shift == c - h - 1
    ensures |u.cells| + shift == |t.cells|
    ensures forall i | 0 <= i < h :: u.cells[i] == t.cells[i]
    ensures forall i | h < i < |u.cells| :: u.cells[i] == t.cells[i + shift]
  {
  }

  lemma EvictUniform(t: Turn, u: Turn, h: nat, c: nat, summary: string)
    requires DistinctRefs(t) && Uniform(t.cells, t.persisted) && h <= 1 && h < c <= |t.cells|
    requires u == Evict(t, h, c, summary) && (c == |t.cells| || t.cells[c].msg.role != Tool)
    ensures Uniform(u.cells, u.persisted)
  {
    var shift := c - h - 1;
    EvictShifts(t, u, h, c, summary, shift);
    forall i | 1 <= i < |u.cells| && u.cells[i].msg.role == Tool
      ensures u.cells[i].ref in u.persisted <==> u.cells[i - 1].ref in u.persisted
    {
      assert i != h && i != h + 1 && i > h;
      assert u.cells[i - 1] == t.cells[i + shift - 1];
    }
  }

  lemma EvictCells(t: Turn, u: Turn, h: nat, c: nat, summary: string)
    requires Books(t) && h < c <= |t.cells| && u == Evict(t, h, c, summary)
    ensures forall i | 0 <= i < |u.cells| :: GoodCell(u, u.cells[i])
  {
    var shift := c - h - 1;
    EvictShifts(t, u, h, c, summary, shift);
    forall i | 0 <= i < |u.cells| && i != h
      ensures GoodCell(u, u.cells[i])
    {
      assert GoodCell(t, t.cells[if i < h then i else i + shift]);
    }
  }

  lemma EvictRefs(t: Turn, u: Turn, h: nat, c: nat, summary: string)
    requires DistinctRefs(t) && h < c <= |t.cells| && u == Evict(t, h, c, summary)
    ensures DistinctRefs(u)
  {
    EvictShifts(t, u, h, c, summary, c - h - 1);
  }

  /** From a place on where no tool message follows unsaved ones, the first unsaved message is no tool message. */
  lemma {:induction false} FirstFresh(cells: seq<Cell>, persisted: set<nat>, k: nat)
    requires k <= |cells| && Uniform(cells, persisted)
    requires k < |cells| ==> cells[k].msg.role != Tool || cells[k].ref in persisted
    ensures Fresh(cells[k..], persisted) != [] ==> Fresh(cells[k..], persisted)[0].msg.role != Tool
    decreases |cells| - k
  {
    if k < |cells| && cells[k].ref in persisted {
      assert cells[k..][1..] == cells[k + 1..];
      FirstFresh(cells, persisted, k + 1);
    }
  }

  /** What is unsaved may be cut where the history may. */
  lemma FreshCut(cells: seq<Cell>, persisted: set<nat>, k: nat)
    requires k <= |cells| && Uniform(cells, persisted) && WellPaired(Msgs(Fresh(cells, persisted)))
    requires k < |cells| ==> cells[k].msg.role != Tool
    ensures WellPaired(Msgs(Fresh(cells[..k], persisted))) && WellPaired(Msgs(Fresh(cells[k..], persisted)))
  {
    var a, b := Fresh(cells[..k], persisted), Fresh(cells[k..], persisted);
    assert cells[..k] + cells[k..] == cells;
    FreshAppend(cells[..k], cells[k..], persisted);
    FirstFresh(cells, persisted, k);
    MsgsAppend(a, b);
    PairedCut(Msgs(a + b), |a|);
    assert Msgs(a + b)[..|a|] == Msgs(a) && Msgs(a + b)[|a|..] == Msgs(b);
  }

  lemma EvictFresh(t: Turn, h: nat, c: nat, summary: string)
    requires Inv(t) && h <= 1 && h <= c <= |t.cells| && (h == 1 ==> t.cells[0].msg.role == System)
    requires c < |t.cells| ==> t.cells[c].msg.role != Tool
    ensures WellPaired(Msgs(Fresh(Evict(t, h, c, summary).cells, Evict(t, h, c, summary).persisted)))
  {
    var a, b := Fresh(t.cells[..h], t.persisted), Fresh(t.cells[c..], t.persisted);
    FreshCut(t.cells, t.persisted, c);
    FreshAroundSummary(t.cells[..h], SummaryCell(t.nextRef, summary), t.cells[c..], t.persisted);
    forall m | m in Msgs(a)
      ensures Bystander(m)
    {
      var i :| 0 <= i < |a| && a[i].msg == m;
      FreshMember(t.cells[..h], t.persisted, a[i]);
    }
    BystandersArePaired(Msgs(a));
    MsgsAppend(a, b);
    PairedAppend(Msgs(a), Msgs(b));
  }

  lemma SummarizeKeeps(t: Turn, preserveLastN: nat, summary: string)
    requires Inv(t)
    ensures Inv(Summarize(t, preserveLastN, summary)) && (Presentable(t) ==> Presentable(Summarize(t, preserveLastN, summary)))
  {
    var h, c := HeadLength(Msgs(t.cells)), CutPoint(Msgs(t.cells), preserveLastN);
    if c >= h + MIN_EVICTED {
      EvictAccounts(t, h, c, summary);
      CutIsTight(Msgs(t.cells), preserveLastN);
      var u := Evict(t, h, c, summary);
      EvictRefs(t, u, h, c, summary);
      EvictUniform(t, u, h, c, summary);
      EvictCells(t, u, h, c, summary);
      EvictFresh(t, h, c, summary);
      StoredWithout(t, u);
      if Presentable(t) {
        SummarizePaired(t, preserveLastN, summary);
      }
    }
  }

  /** Summary compaction loses messages exactly when it evicts some that were not saved yet. */
  lemma SummaryLosesUnsaved(t: Turn, h: nat, c: nat, summary: string)
    requires Inv(t) && h <= c <= |t.cells|
    ensures Evict(t, h, c, summary).lost == t.lost <==>
            forall i | h <= i < c :: t.cells[i].ref in t.persisted || t.cells[i].msg.role == System
  {
    var unsaved := Fresh(t.cells[h..c], t.persisted);
    EvictedNumbers(t, h, c, Numbers(Fresh(t.cells[..h], t.persisted)), Numbers(unsaved), Numbers(Fresh(t.cells[c..], t.persisted)));
    forall i | h <= i < c && t.cells[i].ref !in t.persisted && t.cells[i].msg.role != System
      ensures exists n :: n in NumberSet(unsaved)
    {
      assert GoodCell(t, t.cells[i]);
      assert t.cells[h..c][i - h] == t.cells[i];
      FreshMember(t.cells[h..c], t.persisted, t.cells[i]);
      NumberOfMember(unsaved, t.cells[i]);
      assert t.cells[i].origin.n in NumberSet(unsaved);
    }
    if forall i | h <= i < c :: t.cells[i].ref in t.persisted || t.cells[i].msg.role == System {
      forall x | x in unsaved
        ensures !x.origin.Said?
      {
        FreshMember(t.cells[h..c], t.persisted, x);
        var i :| 0 <= i < c - h && t.cells[h..c][i] == x;
        assert GoodCell(t, t.cells[h + i]);
      }
      NoNumbers(unsaved);
      assert t.lost + {} == t.lost;
    }
  }

  lemma {:induction false} NumberOfMember(cells: seq<Cell>, c: Cell)
    requires c in cells && c.origin.Said?
    ensures c.origin.n in Numbers(cells)
  {
    if c != cells[0] {
      assert c in cells[1..];
      NumberOfMember(cells[1..], c);
    }
  }

  lemma {:induction false} NoNumbers(cells: seq<Cell>)
    requires forall c | c in cells :: !c.origin.Said?
    ensures Numbers(cells) == []
  {
    if cells != [] {
      assert cells[0] in cells;
      NoNumbers(cells[1..]);
    }
  }

  lemma {:induction false} ClonedNumbers(a: seq<Cell>, p: set<nat>, b: seq<Cell>, q: set<nat>)
    requires |a| == |b|
    requires forall i | 0 <= i < |a| :: a[i].origin == b[i].origin && (a[i].ref in p <==> b[i].ref in q)
    ensures Numbers(Fresh(a, p)) == Numbers(Fresh(b, q))
  {
    if a != [] {
      ClonedNumbers(a[1..], p, b[1..], q);
    }
  }

  lemma {:induction false} ClonedShape(a: seq<Cell>, p: set<nat>, b: seq<Cell>, q: set<nat>)
    requires |a| == |b| && SameShape(Msgs(a), Msgs(b))
    requires forall i | 0 <= i < |a| :: a[i].ref in p <==> b[i].ref in q
    ensures SameShape(Msgs(Fresh(a, p)), Msgs(Fresh(b, q)))
  {
    if a != [] {
      assert Msgs(a)[0] == a[0].msg && Msgs(b)[0] == b[0].msg;
      assert Msgs(a)[1..] == Msgs(a[1..]) && Msgs(b)[1..] == Msgs(b[1..]);
      ClonedShape(a[1..], p, b[1..], q);
      if a[0].ref !in p {
        SameShapeMore(a[0], Fresh(a[1..], p), b[0], Fresh(b[1..], q));
      }
    }
  }

  lemma SameShapeMore(x: Cell, a: seq<Cell>, y: Cell, b: seq<Cell>)
    requires SameShape(Msgs(a), Msgs(b)) && SameShape([x.msg], [y.msg])
    ensures SameShape(Msgs([x] + a), Msgs([y] + b))
  {
    var s, r := Msgs([x] + a), Msgs([y] + b);
    assert [x.msg][0] == x.msg && [y.msg][0] == y.msg;
    forall i | 0 <= i < |s|
      ensures s[i].role == r[i].role && s[i].toolCalls == r[i].toolCalls && s[i].toolCallId == r[i].toolCallId
    {
      assert i > 0 ==> s[i] == Msgs(a)[i - 1] && r[i] == Msgs(b)[i - 1];
    }
  }

  /** A message of the turn's own is unsaved in at most one place, and if so not among the saved. */
  lemma AwaitsOnce(t: Turn, i: nat, j: nat, n: nat)
    requires Accounted(t) && Awaits(t.cells, t.persisted, i, n)
    ensures Awaits(t.cells, t.persisted, j, n) ==> i == j
    ensures n !in Numbers(t.saved)
  {
    var a, b, c := t.cells[..i], t.cells[i..i + 1], t.cells[i + 1..];
    var na, nb, nc := Numbers(Fresh(a, t.persisted)), Numbers(Fresh(b, t.persisted)), Numbers(Fresh(c, t.persisted));
    EvictedNumbers(t, i, i + 1, na, nb, nc);
    SurvivorsIncrease(|t.spoken|, t.lost);
    AwaitsIn(b, t.persisted, 0, n);
    IncreasingParts(Numbers(t.saved) + na, nb, nc);
    Elsewhere(Numbers(t.saved), na, nb, n);
    if j < i && Awaits(t.cells, t.persisted, j, n) {
      AwaitsIn(a, t.persisted, j, n);
      assert false;
    }
    if j > i && Awaits(t.cells, t.persisted, j, n) {
      AwaitsIn(c, t.persisted, j - i - 1, n);
      assert false;
    }
  }

  lemma Elsewhere(a: seq<nat>, b: seq<nat>, c: seq<nat>, n: nat)
    requires n in c && forall i | 0 <= i < |a + b| :: (a + b)[i] !in c
    ensures n !in a && n !in b
  {
    forall i | 0 <= i < |a|
      ensures a[i] != n
    {
      assert (a + b)[i] == a[i];
    }
    forall i | 0 <= i < |b|
      ensures b[i] != n
    {
      assert (a + b)[|a| + i] == b[i];
    }
  }

  lemma AwaitsIn(cells: seq<Cell>, persisted: set<nat>, i: nat, n: nat)
    requires Awaits(cells, persisted, i, n)
    ensures n in Numbers(Fresh(cells, persisted))
  {
    FreshMember(cells, persisted, cells[i]);
    NumberOfMember(Fresh(cells, persisted), cells[i]);
  }

  /** `ms` rewrites contents only. */
  ghost predicate SameButContent(cells: seq<Cell>, ms: seq<ContextMessage>) {
    |ms| == |cells| &&
    forall i | 0 <= i < |cells| :: ms[i].(content := cells[i].msg.content) == cells[i].msg
  }

  lemma ShrinkMarks(t: Turn, ms: seq<ContextMessage>)
    requires DistinctRefs(t) && |ms| == |t.cells|
    ensures forall i | 0 <= i < |t.cells| ::
              Shrink(t, ms).cells[i].ref in Shrink(t, ms).persisted <==> t.cells[i].ref in t.persisted
    ensures DistinctRefs(Shrink(t, ms))
  {
  }

  lemma CompactionKeeps(t: Turn, env: Env, target: real, preserveLastN: nat)
    requires Inv(t)
    ensures Inv(Shrink(t, CompactedMessages(env, Msgs(t.cells), target, preserveLastN)))
    ensures Presentable(t) ==> Presentable(Shrink(t, CompactedMessages(env, Msgs(t.cells), target, preserveLastN)))
  {
    ShrinkKeeps(t, CompactedMessages(env, Msgs(t.cells), target, preserveLastN));
  }

  lemma ShrinkKeeps(t: Turn, ms: seq<ContextMessage>)
    requires Inv(t) && SameButContent(t.cells, ms)
    ensures Inv(Shrink(t, ms)) && (Presentable(t) ==> Presentable(Shrink(t, ms)))
  {
    var u := Shrink(t, ms);
    assert SameShape(Msgs(t.cells), Msgs(u.cells));
    ShrinkMarks(t, ms);
    ClonedNumbers(t.cells, t.persisted, u.cells, u.persisted);
    ClonedShape(t.cells, t.persisted, u.cells, u.persisted);
    OwedByShape(Msgs(Fresh(t.cells, t.persisted)), Msgs(Fresh(u.cells, u.persisted)), []);
    OwedByShape(Msgs(t.cells), Msgs(u.cells), []);
    ShrinkForms(t, ms);
    ShrinkCells(t, ms);
    ShrinkSaved(t, ms);
  }

  /** Messages of the turn's own change nothing but their content. */
  lemma ShrinkForms(t: Turn, ms: seq<ContextMessage>)
    requires Books(t) && SameButContent(t.cells, ms)
    ensures Formed(Shrink(t, ms))
  {
    var u := Shrink(t, ms);
    forall n | 0 <= n < |u.spoken|
      ensures IsFormOf(u.forms[n], u.spoken[n])
    {
      assert IsFormOf(t.forms[n], t.spoken[n]);
      if i: nat :| Awaits(t.cells, t.persisted, i, n) {
        ShrinkForm(t, ms, i, n);
        assert GoodCell(t, t.cells[i]);
      }
    }
  }

  /** A message rewritten while unsaved takes the form it is rewritten to. */
  lemma ShrinkForm(t: Turn, ms: seq<ContextMessage>, i: nat, n: nat)
    requires Accounted(t) && |ms| == |t.cells| && n < |t.forms| && Awaits(t.cells, t.persisted, i, n)
    ensures Shrink(t, ms).forms[n] == ms[i]
  {
    forall j: nat | Awaits(t.cells, t.persisted, j, n)
      ensures j == i
    {
      AwaitsOnce(t, i, j, n);
    }
  }

  lemma ShrinkCells(t: Turn, ms: seq<ContextMessage>)
    requires Books(t) && SameButContent(t.cells, ms)
    ensures forall i | 0 <= i < |t.cells| :: GoodCell(Shrink(t, ms), Shrink(t, ms).cells[i])
  {
    var u := Shrink(t, ms);
    ShrinkMarks(t, ms);
    forall i | 0 <= i < |t.cells|
      ensures GoodCell(u, u.cells[i])
    {
      assert GoodCell(t, t.cells[i]);
      if t.cells[i].origin.Said? && t.cells[i].ref !in t.persisted {
        ShrinkForm(t, ms, i, t.cells[i].origin.n);
      }
    }
  }

  /** Rewriting does not touch the form of what is saved. */
  lemma ShrinkSaved(t: Turn, ms: seq<ContextMessage>)
    requires Books(t) && SameButContent(t.cells, ms)
    ensures Stored(Shrink(t, ms))
    ensures forall n | n in Numbers(t.saved) && n < |t.forms| :: Shrink(t, ms).forms[n] == t.forms[n]
  {
    var u := Shrink(t, ms);
    forall n | n in Numbers(t.saved) && n < |t.forms|
      ensures u.forms[n] == t.forms[n]
    {
      if i: nat :| Awaits(t.cells, t.persisted, i, n) {
        AwaitsOnce(t, i, i, n);
      }
    }
    forall i | 0 <= i < |t.saved|
      ensures GoodSave(t, t.saved[i]) && u.forms[t.saved[i].origin.n] == t.forms[t.saved[i].origin.n]
    {
      NumberOfMember(t.saved, t.saved[i]);
    }
    StoredWithout(t, u);
  }

  // ---------------------------------------------------------------------------------------------
  // Tool batches

  lemma PartialBatchOwed(content: Content, calls: seq<ToolCall>, results: seq<string>)
    requires |results| <= |calls|
    ensures Owed(PartialBatch(content, calls, results), []) == Some(calls[|results|..])
  {
    var tools := ToolMessages(calls, results);
    OwedAfterAnswers(tools, calls);
    assert PartialBatch(content, calls, results)[1..] == tools;
  }

  lemma FullBatchPaired(content: Content, calls: seq<ToolCall>, results: seq<string>, images: seq<seq<Part>>)
    requires |results| == |calls|
    ensures WellPaired(FullBatch(content, calls, results, images))
    ensures Speakable(FullBatch(content, calls, results, images))
  {
    PartialBatchOwed(content, calls, results);
    assert calls[|results|..] == [];
    BystandersArePaired(ImageMessages(images));
    PairedAppend(PartialBatch(content, calls, results), ImageMessages(images));
  }

  lemma NextKeeps(t: Turn, e: Event)
    requires Inv(t) && LegalEvent(e)
    ensures Inv(Next(t, e)) && (Presentable(t) ==> Presentable(Next(t, e)))
  {
    match e
    case Speech(ms) =>
      BystandersArePaired(ms);
      SayKeeps(t, ms);
    case Reminder(text) => RemindKeeps(t, text);
    case SummaryCompaction(n, summary) => SummarizeKeeps(t, n, summary);
    case PlaceholderCompaction(env, target, n) => CompactionKeeps(t, env, target, n);
    case Batch(content, calls, results, images, dbOk) =>
      FullBatchPaired(content, calls, results, images);
      SayKeeps(t, FullBatch(content, calls, results, images));
      PersistKeeps(Say(t, FullBatch(content, calls, results, images)));
  }

  /** Over every run of the loop the books stay straight, and a well-paired history stays one. */
  lemma {:induction false} RunKeeps(t: Turn, es: seq<Event>)
    requires Inv(t) && forall e | e in es :: LegalEvent(e)
    ensures Inv(After(t, es)) && (Presentable(t) ==> Presentable(After(t, es)))
    decreases |es|
  {
    if es != [] {
      NextKeeps(t, es[0]);
      RunKeeps(Next(t, es[0]), es[1..]);
    }
  }

  // ---------------------------------------------------------------------------------------------
  // Start

  lemma {:induction false} OwnCellsAre(ms: seq<ContextMessage>, ref: nat, n: nat)
    ensures Msgs(OwnCells(ms, ref, n)) == ms
    ensures forall i | 0 <= i < |OwnCells(ms, ref, n)| :: OwnCells(ms, ref, n)[i].ref == ref + i
  {
    if ms != [] {
      var n' := if ms[0].role == System then n else n + 1;
      var rest := OwnCells(ms[1..], ref + 1, n');
      OwnCellsAre(ms[1..], ref + 1, n');
      assert OwnCells(ms, ref, n)[1..] == rest;
      assert Msgs(OwnCells(ms, ref, n)) == [ms[0]] + Msgs(rest);
    }
  }

  /** `c` carries message `n` or later of the turn's own. */
  ghost predicate Carries(c: Cell, spoken: seq<ContextMessage>, n: nat) {
    if c.origin.Said? then
      c.msg.role != System && n <= c.origin.n < n + |spoken| && spoken[c.origin.n - n] == c.msg
    else c.msg.role == System
  }

  lemma {:induction false} OwnCellsCarry(ms: seq<ContextMessage>, ref: nat, n: nat)
    ensures forall c | c in OwnCells(ms, ref, n) :: Carries(c, WithoutSystem(ms), n)
  {
    if ms != [] {
      var n' := if ms[0].role == System then n else n + 1;
      OwnCellsCarry(ms[1..], ref + 1, n');
      forall c | c in OwnCells(ms[1..], ref + 1, n')
        ensures Carries(c, WithoutSystem(ms), n)
      {
        assert Carries(c, WithoutSystem(ms[1..]), n');
      }
    }
  }

  lemma {:induction false} OwnNumbers(ms: seq<ContextMessage>, ref: nat, n: nat)
    ensures Survivors(n, {}) + Numbers(OwnCells(ms, ref, n)) == Survivors(n + |WithoutSystem(ms)|, {})
  {
    if ms != [] {
      if ms[0].role == System {
        OwnNumbers(ms[1..], ref + 1, n);
        assert OwnCells(ms, ref, n)[1..] == OwnCells(ms[1..], ref + 1, n);
      } else {
        OwnNumbers(ms[1..], ref + 1, n + 1);
        assert OwnCells(ms, ref, n)[1..] == OwnCells(ms[1..], ref + 1, n + 1);
        assert Survivors(n + 1, {}) == Survivors(n, {}) + [n];
        assert Survivors(n, {}) + ([n] + Numbers(OwnCells(ms[1..], ref + 1, n + 1)))
            == Survivors(n + 1, {}) + Numbers(OwnCells(ms[1..], ref + 1, n + 1));
      }
    }
  }

  lemma StartCells(nested: bool, systemPrompt: string, history: seq<ContextMessage>, k: nat)
    requires k <= |history|
    ensures Msgs(Start(nested, systemPrompt, history, k).cells) == [Plain(System, Text(systemPrompt))] + history
    ensures forall i | 0 <= i < |Start(nested, systemPrompt, history, k).cells| ::
              Start(nested, systemPrompt, history, k).cells[i].ref == i
  {
    var known, own := LoadedCells([Plain(System, Text(systemPrompt))] + history[..k]), history[k..];
    OwnCellsAre(own, 1 + k, 0);
    MsgsAppend(known, OwnCells(own, 1 + k, 0));
    assert Msgs(known) == [Plain(System, Text(systemPrompt))] + history[..k];
    assert history[..k] + history[k..] == history;
  }

  lemma StartFresh(known: seq<ContextMessage>, own: seq<ContextMessage>)
    ensures Fresh(LoadedCells(known) + OwnCells(own, |known|, 0), Refs(LoadedCells(known)))
         == OwnCells(own, |known|, 0)
  {
    var a, b, persisted := LoadedCells(known), OwnCells(own, |known|, 0), Refs(LoadedCells(known));
    FreshAppend(a, b, persisted);
    forall i | 0 <= i < |a|
      ensures a[i].ref in persisted
    {
      KnownRefs(known, i);
    }
    FreshNone(a, persisted);
    OwnCellsAre(own, |known|, 0);
    forall i | 0 <= i < |b|
      ensures b[i].ref !in persisted
    {
      KnownRefs(known, |known| + i);
    }
    FreshAll(b, persisted);
    assert [] + b == b;
  }

  lemma OwnNumbersFromStart(own: seq<ContextMessage>, ref: nat, n: nat)
    requires n == 0
    ensures Numbers(OwnCells(own, ref, n)) == Survivors(|WithoutSystem(own)|, {})
  {
    OwnNumbers(own, ref, n);
    assert Survivors(n, {}) == [];
  }

  lemma StartAccounts(known: seq<ContextMessage>, own: seq<ContextMessage>)
    ensures Numbers(Fresh(LoadedCells(known) + OwnCells(own, |known|, 0), Refs(LoadedCells(known))))
         == Survivors(|WithoutSystem(own)|, {})
  {
    StartFresh(known, own);
    OwnNumbersFromStart(own, |known|, 0);
  }

  lemma KnownRefs(ms: seq<ContextMessage>, r: nat)
    ensures r in Refs(LoadedCells(ms)) <==> r < |ms|
  {
    if r < |ms| {
      assert LoadedCells(ms)[r] in LoadedCells(ms);
    }
  }

  /** The model is shown a well-paired history at first if and only if the loaded one is. */
  lemma StartIsPresentable(nested: bool, systemPrompt: string, history: seq<ContextMessage>, persistedCount: nat)
    requires persistedCount <= |history|
    ensures Presentable(Start(nested, systemPrompt, history, persistedCount)) <==> WellPaired(history)
  {
    StartCells(nested, systemPrompt, history, persistedCount);
    BystandersArePaired([Plain(System, Text(systemPrompt))]);
    PairedAppend([Plain(System, Text(systemPrompt))], history);
  }

  /** A turn starts well whatever history it loads, as long as the part that is still to be saved is well
      paired. */
  lemma StartIsSafe(nested: bool, systemPrompt: string, history: seq<ContextMessage>, persistedCount: nat)
    requires persistedCount <= |history| && WellPaired(history[persistedCount..])
    ensures Inv(Start(nested, systemPrompt, history, persistedCount))
  {
    var known, rest := [Plain(System, Text(systemPrompt))] + history[..persistedCount], history[persistedCount..];
    StartOpens(Start(nested, systemPrompt, history, persistedCount), known, rest);
  }

  /** A turn that has loaded `known`, and has the messages `rest` of its own. */
  ghost predicate Loads(t: Turn, known: seq<ContextMessage>, rest: seq<ContextMessage>) {
    && t.cells == LoadedCells(known) + OwnCells(rest, |known|, 0) && t.persisted == Refs(LoadedCells(known))
    && t.nextRef == |known| + |rest| && t.spoken == t.forms == WithoutSystem(rest)
    && t.rows == [] && t.lost == {} && t.saved == []
  }

  lemma StartOpens(t: Turn, known: seq<ContextMessage>, rest: seq<ContextMessage>)
    requires Loads(t, known, rest) && WellPaired(rest)
    ensures Inv(t)
  {
    LoadedRefs(t, known, rest);
    LoadedAccounts(t, known, rest);
    StartGoodCells(t, known, rest);
    LoadedUniform(t, known, rest);
    OwnCellsAre(rest, |known|, 0);
  }

  lemma LoadedRefs(t: Turn, known: seq<ContextMessage>, rest: seq<ContextMessage>)
    requires Loads(t, known, rest)
    ensures DistinctRefs(t) && |t.cells| == |known| + |rest|
    ensures forall i | 0 <= i < |t.cells| :: t.cells[i].ref == i && t.cells[i].msg == if i < |known| then known[i] else rest[i - |known|]
    ensures forall r: nat :: r in t.persisted <==> r < |known|
  {
    OwnCellsAre(rest, |known|, 0);
    assert |Msgs(OwnCells(rest, |known|, 0))| == |rest|;
    forall i | |known| <= i < |t.cells|
      ensures t.cells[i].ref == i && t.cells[i].msg == rest[i - |known|]
    {
      assert t.cells[i] == OwnCells(rest, |known|, 0)[i - |known|];
      assert Msgs(OwnCells(rest, |known|, 0))[i - |known|] == rest[i - |known|];
    }
    forall r: nat
      ensures r in t.persisted <==> r < |known|
    {
      KnownRefs(known, r);
    }
  }

  lemma LoadedAccounts(t: Turn, known: seq<ContextMessage>, rest: seq<ContextMessage>)
    requires Loads(t, known, rest)
    ensures Accounted(t) && Fresh(t.cells, t.persisted) == OwnCells(rest, |known|, 0)
  {
    StartAccounts(known, rest);
    StartFresh(known, rest);
    var none: seq<nat> := [];
    assert none + Survivors(|t.spoken|, {}) == Survivors(|t.spoken|, {});
  }

  lemma LoadedUniform(t: Turn, known: seq<ContextMessage>, rest: seq<ContextMessage>)
    requires Loads(t, known, rest) && WellPaired(rest)
    ensures Uniform(t.cells, t.persisted)
  {
    LoadedRefs(t, known, rest);
    assert rest != [] ==> rest[0].role != Tool;
  }

  lemma StartGoodCells(t: Turn, known: seq<ContextMessage>, rest: seq<ContextMessage>)
    requires t.cells == LoadedCells(known) + OwnCells(rest, |known|, 0) && t.forms == WithoutSystem(rest)
    requires forall r | 0 <= r < |known| :: r in t.persisted
    ensures forall i | 0 <= i < |t.cells| :: GoodCell(t, t.cells[i])
  {
    OwnCellsCarry(rest, |known|, 0);
    forall i | 0 <= i < |t.cells|
      ensures GoodCell(t, t.cells[i])
    {
      if i >= |known| {
        assert t.cells[i] == OwnCells(rest, |known|, 0)[i - |known|];
        assert Carries(t.cells[i], t.forms, 0);
      }
    }
  }

  // ---------------------------------------------------------------------------------------------
  // Ends of a turn

  lemma {:induction false} NumbersOfSaid(cells: seq<Cell>)
    requires forall i | 0 <= i < |cells| :: cells[i].origin.Said?
    ensures |Numbers(cells)| == |cells| && forall i | 0 <= i < |cells| :: Numbers(cells)[i] == cells[i].origin.n
  {
    if cells != [] {
      NumbersOfSaid(cells[1..]);
    }
  }

  /** These are numbers of messages of the turn. */
  ghost predicate InTurn(t: Turn, ns: seq<nat>) { forall i | 0 <= i < |ns| :: ns[i] < |t.forms| }

  /** The rows are exactly the messages with these numbers, in the form they were saved in. */
  ghost predicate Holds(t: Turn, ns: seq<nat>) {
    InTurn(t, ns) && t.rows == StoredForms(Recorded(t, ns))
  }

  /** The numbers of all messages of the turn but those that summaries evicted unsaved. */
  function NotLost(t: Turn): seq<nat> { Survivors(|t.spoken|, t.lost) }

  lemma RowsAreRecorded(t: Turn)
    requires Stored(t)
    ensures Holds(t, Numbers(t.saved))
  {
    forall i | 0 <= i < |t.saved|
      ensures t.saved[i].origin.Said?
    {
      assert GoodSave(t, t.saved[i]);
    }
    NumbersOfSaid(t.saved);
    forall i | 0 <= i < |t.saved|
      ensures t.saved[i].origin.n < |t.forms| && t.saved[i].msg == t.forms[t.saved[i].origin.n]
    {
      assert GoodSave(t, t.saved[i]);
    }
    assert Recorded(t, Numbers(t.saved)) == Msgs(t.saved);
  }

  /** However a turn ends between batches, the table holds exactly the messages the turn produced, each
      once and in order, less those lost; ephemeral ones never; and it is well paired. */
  lemma TurnIsStored(t: Turn)
    requires Inv(t) && !t.nested
    ensures Holds(Persist(t), NotLost(t)) && WellPaired(Persist(t).rows) && Increasing(NotLost(t))
    ensures Numbers(Persist(t).saved) == NotLost(t)
    ensures FinalSave(t).rows == Persist(t).rows && FinalSave(t).saved == Persist(t).saved
  {
    PersistKeeps(t);
    RowsAreRecorded(Persist(t));
    SurvivorsIncrease(|t.spoken|, t.lost);
    OwedByShape(Msgs(Persist(t).saved), Persist(t).rows, []);
    PairedIsClosed(Msgs(Fresh(t.cells, t.persisted)));
  }

  /** At every moment the rows are well paired, and are messages of the turn, none twice or out of order. */
  lemma NothingStoredTwice(t: Turn)
    requires Inv(t)
    ensures Holds(t, Numbers(t.saved)) && WellPaired(t.rows) && Increasing(Numbers(t.saved))
    ensures Numbers(t.saved) <= NotLost(t)
  {
    RowsAreRecorded(t);
    SurvivorsIncrease(|t.spoken|, t.lost);
    OwedByShape(Msgs(t.saved), t.rows, []);
    var s := Numbers(t.saved) + Numbers(Fresh(t.cells, t.persisted));
    assert forall i | 0 <= i < |Numbers(t.saved)| :: Numbers(t.saved)[i] == s[i];
  }

  /** If something fails after the final save, the turn's error handler saves again what that save left
      unmarked: messages are stored twice exactly when the final save had anything to store. */
  lemma LateFailureStoresTwice(t: Turn)
    requires Inv(t) && !t.nested
    ensures Persist(FinalSave(t)).rows
         == Persist(t).rows + StoredForms(WithoutSystem(Msgs(Fresh(t.cells, t.persisted))))
    ensures Holds(Persist(FinalSave(t)), NotLost(t) + NotLost(t)[|Numbers(t.saved)|..])
    ensures Persist(FinalSave(t)).rows == Persist(t).rows <==> Numbers(Fresh(t.cells, t.persisted)) == []
  {
    var unsaved := Fresh(t.cells, t.persisted);
    var own := NonSystem(unsaved);
    TurnIsStored(t);
    UnsavedAreSaid(t);
    PairedIsClosed(Msgs(unsaved));
    NonSystemMsgs(unsaved);
    forall i | 0 <= i < |own|
      ensures own[i].origin.Said?
    {
      assert GoodSave(t, own[i]);
    }
    NumbersOfSaid(own);
    assert NotLost(t)[|Numbers(t.saved)|..] == Numbers(own);
    assert Recorded(t, Numbers(own)) == Msgs(own) by {
      forall i | 0 <= i < |own|
        ensures own[i].origin.n < |t.forms| && own[i].msg == t.forms[own[i].origin.n]
      {
        assert GoodSave(t, own[i]);
      }
    }
    RecordedTwice(Persist(FinalSave(t)), NotLost(t), Numbers(own));
    assert Recorded(Persist(t), NotLost(t)) == Recorded(Persist(FinalSave(t)), NotLost(t));
    assert Recorded(t, Numbers(own)) == Recorded(Persist(FinalSave(t)), Numbers(own));
  }

  lemma RecordedTwice(t: Turn, ns: seq<nat>, more: seq<nat>)
    requires InTurn(t, ns) && InTurn(t, more)
    ensures InTurn(t, ns + more)
    ensures StoredForms(Recorded(t, ns + more)) == StoredForms(Recorded(t, ns)) + StoredForms(Recorded(t, more))
  {
    assert Recorded(t, ns + more) == Recorded(t, ns) + Recorded(t, more);
    StoredFormsAppend(Recorded(t, ns), Recorded(t, more));
  }

  /** With nothing of its own unsaved, the final save leaves the books straight too. */
  lemma NothingLeftToSave(t: Turn)
    requires Inv(t) && !t.nested && Numbers(Fresh(t.cells, t.persisted)) == []
    ensures Inv(FinalSave(t))
  {
    var u := FinalSave(t);
    WriteKeeps(t);
    assert Numbers(u.saved) + [] == Numbers(u.saved);
    forall i | 0 <= i < |u.cells|
      ensures GoodCell(u, u.cells[i])
    {
      assert GoodCell(t, t.cells[i]);
    }
  }

  lemma {:induction false} NoSystemHere(ms: seq<ContextMessage>)
    requires forall m | m in ms :: m.role != System
    ensures WithoutSystem(ms) == ms
  {
    if ms != [] {
      assert ms[0] in ms;
      NoSystemHere(ms[1..]);
    }
  }

  lemma {:induction false} MissingIsTools(calls: seq<ToolCall>, answered: Ids)
    ensures forall m | m in Missing(calls, answered) :: m.role == Tool
  {
    if calls != [] {
      MissingIsTools(calls[1..], answered);
    }
  }

  /** What closing makes of the unsaved messages when the last batch was cut after `results`. */
  lemma CutBatchClosed(t: Turn, content: Content, calls: seq<ToolCall>, results: seq<string>)
    requires Inv(t) && |results| <= |calls|
    ensures Closed(Msgs(Fresh(Say(t, PartialBatch(content, calls, results)).cells, t.persisted)), [], {})
         == Msgs(Fresh(t.cells, t.persisted)) + Closed(PartialBatch(content, calls, results), [], {})
  {
    var part := PartialBatch(content, calls, results);
    SayAccounts(t, part);
    MsgsOfNew(part, t.nextRef, |t.spoken|);
    MsgsAppend(Fresh(t.cells, t.persisted), NewCells(part, t.nextRef, |t.spoken|));
    ClosedAfterPaired(Msgs(Fresh(t.cells, t.persisted)), part, [], 0, {});
  }

  lemma CutBatchPaired(content: Content, calls: seq<ToolCall>, results: seq<string>)
    requires |results| <= |calls|
    ensures WellPaired(Closed(PartialBatch(content, calls, results), [], {})) <==> NoReusedId(calls, |results|)
  {
    ClosedCutBatch([], CallMessage(content, calls), ToolMessages(calls, results));
    assert [] + PartialBatch(content, calls, results) == PartialBatch(content, calls, results);
  }

  /** The rows a save adds when the last batch was cut. */
  lemma CutBatchRows(t: Turn, content: Content, calls: seq<ToolCall>, results: seq<string>)
    requires Inv(t) && !t.nested && |results| <= |calls|
    ensures Persist(Say(t, PartialBatch(content, calls, results))).rows
         == Persist(t).rows + StoredForms(Closed(PartialBatch(content, calls, results), [], {}))
  {
    var unsaved := Msgs(Fresh(t.cells, t.persisted));
    var batch := Closed(PartialBatch(content, calls, results), [], {});
    CutBatchClosed(t, content, calls, results);
    PairedIsClosed(unsaved);
    WithoutSystemAppend(unsaved, batch);
    CutBatchHasNoSystem(content, calls, results);
    StoredFormsAppend(WithoutSystem(unsaved), batch);
  }

  lemma CutBatchHasNoSystem(content: Content, calls: seq<ToolCall>, results: seq<string>)
    requires |results| <= |calls|
    ensures WithoutSystem(Closed(PartialBatch(content, calls, results), [], {}))
         == Closed(PartialBatch(content, calls, results), [], {})
  {
    var tools := ToolMessages(calls, results);
    ClosedBatch(CallMessage(content, calls), tools);
    if calls == [] {
      assert tools == [];
    } else {
      ClosedRun(tools, calls, {});
      MissingIsTools(calls, {} + IdsOf(tools));
    }
    NoSystemHere(Closed(PartialBatch(content, calls, results), [], {}));
  }

  /** Placeholders for the calls a cut batch left open. */
  function Unanswered(calls: seq<ToolCall>, results: seq<string>): seq<ContextMessage>
    requires |results| <= |calls|
  {
    Missing(calls, IdsOf(ToolMessages(calls, results)))
  }

  lemma ClosedIsMore(content: Content, calls: seq<ToolCall>, results: seq<string>)
    requires |results| <= |calls|
    ensures Closed(PartialBatch(content, calls, results), [], {}) == PartialBatch(content, calls, results) + Unanswered(calls, results)
  {
    var tools := ToolMessages(calls, results);
    ClosedBatch(CallMessage(content, calls), tools);
    if calls == [] {
      assert tools == [];
    } else {
      ClosedRun(tools, calls, {});
      assert {} + IdsOf(tools) == IdsOf(tools);
      Associate([CallMessage(content, calls)], tools, Unanswered(calls, results));
    }
  }

  lemma {:induction false} SurvivorsExtend(n: nat, k: nat, lost: set<nat>)
    requires forall x | x in lost :: x < n
    ensures Survivors(n + k, lost) == Survivors(n, lost) + seq(k, i requires 0 <= i < k => n + i)
  {
    if k > 0 {
      SurvivorsExtend(n, k - 1, lost);
      assert seq(k, i requires 0 <= i < k => n + i) == seq(k - 1, i requires 0 <= i < k - 1 => n + i) + [n + k - 1];
    }
  }

  /** What is said last is recorded last. */
  lemma RecordedExtend(t: Turn, ms: seq<ContextMessage>)
    requires Formed(t) && (forall x | x in t.lost :: x < |t.spoken|) && InTurn(t, NotLost(t))
    ensures InTurn(Say(t, ms), NotLost(Say(t, ms)))
    ensures Recorded(Say(t, ms), NotLost(Say(t, ms))) == Recorded(t, NotLost(t)) + ms
  {
    var n := |t.spoken|;
    SurvivorsExtend(n, |ms|, t.lost);
    forall i | 0 <= i < |NotLost(Say(t, ms))|
      ensures NotLost(Say(t, ms))[i] < n + |ms|
    {
    }
  }

  /** A turn that ends inside a batch: everything it produced is stored, each message once, followed by
      placeholders for the calls left open; the transcript is well paired exactly when none of them
      repeats the id of an answered one. */
  lemma CutBatchIsStored(t: Turn, content: Content, calls: seq<ToolCall>, results: seq<string>)
    requires Inv(t) && !t.nested && |results| <= |calls|
    ensures var s := Say(t, PartialBatch(content, calls, results));
            && InTurn(s, NotLost(s)) && Increasing(NotLost(s))
            && Persist(s).rows == StoredForms(Recorded(s, NotLost(s)) + Unanswered(calls, results))
            && (WellPaired(Persist(s).rows) <==> NoReusedId(calls, |results|))
  {
    var part, more := PartialBatch(content, calls, results), Unanswered(calls, results);
    var s := Say(t, part);
    TurnIsStored(t);
    assert Recorded(Persist(t), NotLost(t)) == Recorded(t, NotLost(t));
    CutBatchRows(t, content, calls, results);
    ClosedIsMore(content, calls, results);
    RecordedExtend(t, part);
    SurvivorsIncrease(|s.spoken|, s.lost);
    StoredFormsAppend(Recorded(t, NotLost(t)), part + more);
    Associate(Recorded(t, NotLost(t)), part, more);
    CutBatchAppended(Persist(t).rows, content, calls, results);
  }

  lemma CutBatchAppended(rows: seq<ContextMessage>, content: Content, calls: seq<ToolCall>, results: seq<string>)
    requires WellPaired(rows) && |results| <= |calls|
    ensures WellPaired(rows + StoredForms(Closed(PartialBatch(content, calls, results), [], {})))
       <==> NoReusedId(calls, |results|)
  {
    var batch := Closed(PartialBatch(content, calls, results), [], {});
    CutBatchPaired(content, calls, results);
    PairedAppend(rows, StoredForms(batch));
    OwedByShape(batch, StoredForms(batch), []);
  }
}
