/** Which messages give way first when a history is compacted, told by what a reader sees of them: who says them,
    which tool they come from, how large they are, and how far back they lie. */
module Ranking {
  import opened Options
  import opened Conversation
  import opened Compaction

  /** Candidate `i` gives way before candidate `j`. */
  ghost predicate GivesWayFirst(env: Env, ms: seq<ContextMessage>, preserveLastN: nat, i: nat, j: nat) {
    exists a, b :: 0 <= a < b < |CompactionOrder(env, ms, preserveLastN)| &&
                   CompactionOrder(env, ms, preserveLastN)[a] == i && CompactionOrder(env, ms, preserveLastN)[b] == j
  }

  datatype Speaker = System | User | Other

  datatype Source = ReadsFile | EditsFile | Verifies | Unranked

  datatype Size = Small | Large | Huge

  datatype Age = Early | LaterHalf | LastFifth

  datatype Traits = Traits(speaker: Speaker, source: Source, size: Size, age: Age)

  ghost function SpeakerOf(m: ContextMessage): Speaker {
    match m.role
    case System => Speaker.System
    case User => Speaker.User
    case Assistant => Other
    case Tool => Other
  }

  ghost function SourceOf(m: ContextMessage): Source {
    if m.toolName == Some("read_file") then ReadsFile
    else if m.toolName == Some("edit_file") then EditsFile
    else if m.toolName in {Some("run_lint"), Some("run_tests")} then Verifies
    else Unranked
  }

  /** By its estimate in tokens. */
  ghost function SizeOf(env: Env, m: ContextMessage): Size {
    if EstimateMessageTokens(env, m) > 5000 then Huge else if EstimateMessageTokens(env, m) > 2000 then Large else Small
  }

  /** By its place among `n` candidates. */
  ghost function AgeOf(i: nat, n: nat): Age {
    if i as real > 0.8 * (n as real) then LastFifth else if i as real > 0.5 * (n as real) then LaterHalf else Early
  }

  ghost function TraitsOf(env: Env, ms: seq<ContextMessage>, preserveLastN: nat, i: nat): Traits
    requires i < |ms| && preserveLastN <= |ms|
  {
    Traits(SpeakerOf(ms[i]), SourceOf(ms[i]), SizeOf(env, ms[i]), AgeOf(i, |ms| - preserveLastN))
  }

  // ---------------------------------------------------------------------------------------------
  // Traits decide

  /** The order among sources: lookups give way before what the ranking does not know, edits behind it, and
      checks behind those. */
  ghost function SourceRank(s: Source): int {
    match s
    case ReadsFile => -20
    case Unranked => 0
    case EditsFile => 40
    case Verifies => 60
  }

  ghost function Worth(t: Traits): int {
    SourceRank(t.source)
    + (match t.speaker case System => 1000 case User => 80 case Other => 0)
    + (match t.age case LastFifth => 100 case LaterHalf => 50 case Early => 0)
    - (match t.size case Huge => 90 case Large => 30 case Small => 0)
  }

  lemma ScoreIsWorth(env: Env, ms: seq<ContextMessage>, preserveLastN: nat, i: nat)
    requires i < |ms| - preserveLastN
    ensures Scores(env, Candidates(ms, preserveLastN))[i] == Worth(TraitsOf(env, ms, preserveLastN, i))
  {
  }

  lemma OrderDecides(env: Env, ms: seq<ContextMessage>, preserveLastN: nat, i: nat, j: nat)
    requires i < |ms| - preserveLastN && j < |ms| - preserveLastN
    ensures GivesWayFirst(env, ms, preserveLastN, i, j) <==> Before(Scores(env, Candidates(ms, preserveLastN)), i, j)
  {
    var order, scores := CompactionOrder(env, ms, preserveLastN), Scores(env, Candidates(ms, preserveLastN));
    OrderIsSorted(env, ms, preserveLastN);
    assert i in order && j in order;
    var a :| 0 <= a < |order| && order[a] == i;
    var b :| 0 <= b < |order| && order[b] == j;
    if a < b {
      assert Before(scores, order[a], order[b]);
    } else if b < a {
      assert Before(scores, order[b], order[a]);
    }
    if GivesWayFirst(env, ms, preserveLastN, i, j) {
      var c, d :| 0 <= c < d < |order| && order[c] == i && order[d] == j;
      assert Before(scores, order[c], order[d]);
    }
  }

  /** Of two candidates, the one whose traits are worth less gives way first, and of equals the older one. */
  lemma TraitsDecide(env: Env, ms: seq<ContextMessage>, preserveLastN: nat, i: nat, j: nat)
    requires i < |ms| - preserveLastN && j < |ms| - preserveLastN
    ensures GivesWayFirst(env, ms, preserveLastN, i, j) <==>
            var v, w := Worth(TraitsOf(env, ms, preserveLastN, i)), Worth(TraitsOf(env, ms, preserveLastN, j));
            v < w || (v == w && i < j)
  {
    OrderDecides(env, ms, preserveLastN, i, j);
    ScoreIsWorth(env, ms, preserveLastN, i);
    ScoreIsWorth(env, ms, preserveLastN, j);
  }

  // ---------------------------------------------------------------------------------------------
  // Who gives way first

  ghost predicate Candidate(ms: seq<ContextMessage>, preserveLastN: nat, i: nat) { i < |ms| - preserveLastN }

  /** Neither has a better claim to stay: the older one gives way first. */
  ghost predicate Even(env: Env, ms: seq<ContextMessage>, preserveLastN: nat, i: nat, j: nat) {
    (GivesWayFirst(env, ms, preserveLastN, i, j) <==> i < j) && (GivesWayFirst(env, ms, preserveLastN, j, i) <==> j < i)
  }

  /** System messages are compacted last, whatever else they are. */
  lemma SystemIsLast(env: Env, ms: seq<ContextMessage>, preserveLastN: nat, i: nat, j: nat)
    requires Candidate(ms, preserveLastN, i) && Candidate(ms, preserveLastN, j)
    requires ms[i].role != Role.System && ms[j].role == Role.System
    ensures GivesWayFirst(env, ms, preserveLastN, i, j) && !GivesWayFirst(env, ms, preserveLastN, j, i)
  {
    TraitsDecide(env, ms, preserveLastN, i, j);
    TraitsDecide(env, ms, preserveLastN, j, i);
  }

  /** Candidates that differ in one trait only, or in none: what assistant and tools say gives way before what
      users say; what was read from a file before what comes from no ranked tool, that before edits, and edits
      before checks; huge messages before large ones, and those before small ones; early ones before those
      of the later half, and those before the last fifth; and of equals the older one. */
  lemma OneTraitDecides(env: Env, ms: seq<ContextMessage>, preserveLastN: nat, i: nat, j: nat, t: Traits, u: Traits)
    requires Candidate(ms, preserveLastN, i) && Candidate(ms, preserveLastN, j)
    requires t == TraitsOf(env, ms, preserveLastN, i) && u == TraitsOf(env, ms, preserveLastN, j)
    ensures t == u ==> Even(env, ms, preserveLastN, i, j)
    ensures t.(speaker := u.speaker) == u && t.speaker == Other && u.speaker == Speaker.User ==> GivesWayFirst(env, ms, preserveLastN, i, j)
    ensures t.(source := u.source) == u && t.source == ReadsFile && u.source == Unranked ==> GivesWayFirst(env, ms, preserveLastN, i, j)
    ensures t.(source := u.source) == u && t.source == Unranked && u.source == EditsFile ==> GivesWayFirst(env, ms, preserveLastN, i, j)
    ensures t.(source := u.source) == u && t.source == EditsFile && u.source == Verifies ==> GivesWayFirst(env, ms, preserveLastN, i, j)
    ensures t.(size := u.size) == u && t.size == Huge && u.size == Large ==> GivesWayFirst(env, ms, preserveLastN, i, j)
    ensures t.(size := u.size) == u && t.size == Large && u.size == Small ==> GivesWayFirst(env, ms, preserveLastN, i, j)
    ensures t.(age := u.age) == u && t.age == Early && u.age == LaterHalf ==> GivesWayFirst(env, ms, preserveLastN, i, j)
    ensures t.(age := u.age) == u && t.age == LaterHalf && u.age == LastFifth ==> GivesWayFirst(env, ms, preserveLastN, i, j)
  {
    TraitsDecide(env, ms, preserveLastN, i, j);
    TraitsDecide(env, ms, preserveLastN, j, i);
  }

  /** How traits weigh against each other: pairs in which they balance. With the order of each trait, these
      balances fix all weights but for a common factor. */
  lemma TraitsBalance(env: Env, ms: seq<ContextMessage>, preserveLastN: nat, i: nat, j: nat, t: Traits, u: Traits)
    requires Candidate(ms, preserveLastN, i) && Candidate(ms, preserveLastN, j)
    requires t == TraitsOf(env, ms, preserveLastN, i) && u == TraitsOf(env, ms, preserveLastN, j)
    ensures t == Traits(Speaker.User, Unranked, Large, Early) && u == Traits(Other, Unranked, Small, LaterHalf) ==> Even(env, ms, preserveLastN, i, j)
    ensures t == Traits(Speaker.User, Unranked, Large, LaterHalf) && u == Traits(Other, Unranked, Small, LastFifth) ==> Even(env, ms, preserveLastN, i, j)
    ensures t == Traits(Speaker.User, ReadsFile, Small, Early) && u == Traits(Other, Verifies, Small, Early) ==> Even(env, ms, preserveLastN, i, j)
    ensures t == Traits(Other, EditsFile, Small, LastFifth) && u == Traits(Speaker.User, Verifies, Small, Early) ==> Even(env, ms, preserveLastN, i, j)
    ensures t == Traits(Other, Verifies, Huge, Early) && u == Traits(Other, Unranked, Large, Early) ==> Even(env, ms, preserveLastN, i, j)
    ensures t == Traits(Other, EditsFile, Large, Early) && u == Traits(Other, Unranked, Huge, LastFifth) ==> Even(env, ms, preserveLastN, i, j)
    ensures t == Traits(Other, ReadsFile, Small, LastFifth) && u == Traits(Speaker.User, Unranked, Small, Early) ==> Even(env, ms, preserveLastN, i, j)
  {
    TraitsDecide(env, ms, preserveLastN, i, j);
    TraitsDecide(env, ms, preserveLastN, j, i);
  }

  // ---------------------------------------------------------------------------------------------
  // Estimates

  /** The fewest tokens that stand for so many characters, at three and a half characters a token. */
  ghost predicate FewestFor(tokens: nat, characters: nat) {
    tokens as real * 3.5 >= characters as real && (tokens > 0 ==> (tokens - 1) as real * 3.5 < characters as real)
  }

  ghost function TextsOf(parts: seq<Part>): string {
    if parts == [] then ""
    else TextsOf(parts[..|parts| - 1]) + match parts[|parts| - 1] case TextPart(text) => text case ImagePart(_) => ""
  }

  ghost function ImagesIn(parts: seq<Part>): set<nat> { set i | 0 <= i < |parts| && parts[i].ImagePart? }

  /** The text a message holds, all its text parts together. */
  ghost function TextIn(m: ContextMessage): string {
    match m.content
    case NoContent => ""
    case Text(text) => text
    case Parts(parts) => TextsOf(parts)
  }

  ghost function ImageTotal(m: ContextMessage): nat { if m.content.Parts? then |ImagesIn(m.content.parts)| else 0 }

  lemma FewestTokens(length: nat)
    ensures FewestFor(EstimateTokens(length), length)
  {
    var r := EstimateTokens(length);
    assert 7 * r >= 2 * length && (r > 0 ==> 7 * (r - 1) < 2 * length);
  }

  lemma {:induction false} PartsCounted(a: seq<Part>, p: Part)
    ensures TextLength(a + [p]) == TextLength(a) + if p.TextPart? then |p.text| else 0
    ensures ImageCount(a + [p]) == ImageCount(a) + if p.ImagePart? then 1 else 0
  {
    if a == [] {
      assert a + [p] == [p] && [p][1..] == [];
    } else {
      PartsCounted(a[1..], p);
      assert (a + [p])[0] == a[0] && (a + [p])[1..] == a[1..] + [p];
    }
  }

  lemma {:induction false} PartsMeasured(parts: seq<Part>)
    ensures TextLength(parts) == |TextsOf(parts)| && ImageCount(parts) == |ImagesIn(parts)|
    decreases |parts|
  {
    if parts == [] {
      assert ImagesIn(parts) == {};
    } else {
      var n := |parts| - 1;
      PartsMeasured(parts[..n]);
      PartsCounted(parts[..n], parts[n]);
      assert parts == parts[..n] + [parts[n]];
      ImagesMore(parts, n);
    }
  }

  lemma ImagesMore(parts: seq<Part>, n: nat)
    requires |parts| == n + 1
    ensures |ImagesIn(parts)| == |ImagesIn(parts[..n])| + if parts[n].ImagePart? then 1 else 0
  {
    forall i
      ensures i in ImagesIn(parts) <==> i in ImagesIn(parts[..n]) || (i == n && parts[n].ImagePart?)
    {
      assert 0 <= i < n ==> parts[..n][i] == parts[i];
    }
    if parts[n].ImagePart? {
      assert ImagesIn(parts) == ImagesIn(parts[..n]) + {n};
    } else {
      assert ImagesIn(parts) == ImagesIn(parts[..n]);
    }
  }

  /** An estimate counts the text, a thousand tokens for every image, and the calls as they are printed. */
  lemma EstimateCounts(env: Env, m: ContextMessage) returns (text: nat, calls: nat)
    ensures EstimateMessageTokens(env, m) == text + 1000 * ImageTotal(m) + calls
    ensures FewestFor(text, |TextIn(m)|)
    ensures if m.toolCalls == [] then calls == 0 else FewestFor(calls, env.jsonLength(m.toolCalls))
  {
    text := EstimateTokens(|TextIn(m)|);
    calls := if m.toolCalls == [] then 0 else EstimateTokens(env.jsonLength(m.toolCalls));
    FewestTokens(|TextIn(m)|);
    if m.toolCalls != [] {
      FewestTokens(env.jsonLength(m.toolCalls));
    }
    if m.content.Parts? {
      PartsMeasured(m.content.parts);
    }
  }

  /** A history counts what its messages count together. */
  lemma {:induction false} TotalAppends(env: Env, a: seq<ContextMessage>, m: ContextMessage)
    ensures TotalTokens(env, []) == 0
    ensures TotalTokens(env, a + [m]) == TotalTokens(env, a) + EstimateMessageTokens(env, m)
  {
    if a == [] {
      assert a + [m] == [m] && [m][1..] == [];
    } else {
      TotalAppends(env, a[1..], m);
      assert (a + [m])[0] == a[0] && (a + [m])[1..] == a[1..] + [m];
    }
  }
}
