/** Text that arrives in chunks, cut into lines: what is complete so far, and the unfinished rest. */
module Lines {
  import opened Sequences
  import opened Options

  /** First position of `c` from `i` on. */
  function IndexOf(text: string, c: char, i: nat): (r: Option<nat>)
    ensures r.Some? ==> i <= r.value < |text| && text[r.value] == c && forall k | i <= k < r.value :: text[k] != c
    ensures r.None? ==> forall k | i <= k < |text| :: text[k] != c
    decreases |text| - i
  {
    if i >= |text| then None else if text[i] == c then Some(i) else IndexOf(text, c, i + 1)
  }

  /** The pieces that end in a line feed (without it), and what follows the last one. */
  function Split(text: string): (seq<string>, string)
    decreases |text|
  {
    match IndexOf(text, '\n', 0)
    case None => ([], text)
    case Some(k) => ([text[..k]] + Split(text[k + 1..]).0, Split(text[k + 1..]).1)
  }

  function JoinLines(pieces: seq<string>): string {
    if pieces == [] then ""
    else if |pieces| == 1 then pieces[0]
    else pieces[0] + ['\n'] + JoinLines(pieces[1..])
  }

  /** What comes out, and what is kept, when the chunks arrive one by one. */
  function Fed(rest: string, chunks: seq<string>): (seq<string>, string)
    decreases |chunks|
  {
    if chunks == [] then ([], rest)
    else
      var now := Split(rest + chunks[0]);
      var later := Fed(now.1, chunks[1..]);
      (now.0 + later.0, later.1)
  }

  lemma {:induction false} IndexInFront(a: string, b: string, c: char, i: nat)
    requires IndexOf(a, c, i).Some?
    ensures IndexOf(a + b, c, i) == IndexOf(a, c, i)
    decreases |a| - i
  {
    if a[i] != c {
      IndexInFront(a, b, c, i + 1);
    }
  }

  lemma {:induction false} IndexIs(text: string, c: char, i: nat, k: nat)
    requires i <= k < |text| && text[k] == c && forall j | i <= j < k :: text[j] != c
    ensures IndexOf(text, c, i) == Some(k)
    decreases k - i
  {
    if i < k {
      IndexIs(text, c, i + 1, k);
    }
  }

  /** A line that is complete stays the first line, whatever follows. */
  lemma SplitOff(line: string, rest: string)
    requires '\n' !in line
    ensures Split(line + ['\n'] + rest) == ([line] + Split(rest).0, Split(rest).1)
  {
    var text := line + ['\n'] + rest;
    assert forall j | 0 <= j < |line| :: text[j] == line[j];
    IndexIs(text, '\n', 0, |line|);
    assert text[..|line|] == line && text[|line| + 1..] == rest;
  }

  function Unsplit(lines: seq<string>, rest: string): string {
    if lines == [] then rest else lines[0] + ['\n'] + Unsplit(lines[1..], rest)
  }

  /** Lines and rest give back the text. */
  lemma {:induction false} SplitRebuilds(text: string)
    ensures Unsplit(Split(text).0, Split(text).1) == text
    decreases |text|
  {
    var i := IndexOf(text, '\n', 0);
    if i.Some? {
      SplitRebuilds(text[i.value + 1..]);
      UnsplitFirst(text, i.value, Split(text[i.value + 1..]).0, Split(text[i.value + 1..]).1);
    }
  }

  lemma UnsplitFirst(text: string, k: nat, lines: seq<string>, rest: string)
    requires k < |text| && text[k] == '\n' && Unsplit(lines, rest) == text[k + 1..]
    ensures Unsplit([text[..k]] + lines, rest) == text
  {
    assert ([text[..k]] + lines)[1..] == lines;
    assert text == text[..k] + ['\n'] + text[k + 1..];
  }

  lemma Unfinished(text: string)
    requires '\n' !in text
    ensures Split(text) == ([], text)
  {
  }

  lemma {:induction false} SplitAppend(a: string, b: string)
    ensures Split(a + b).0 == Split(a).0 + Split(Split(a).1 + b).0
    ensures Split(a + b).1 == Split(Split(a).1 + b).1
    decreases |a|
  {
    var i := IndexOf(a, '\n', 0);
    if i.Some? {
      var k, rest := i.value, a[i.value + 1..];
      IndexInFront(a, b, '\n', 0);
      assert (a + b)[..k] == a[..k] && (a + b)[k + 1..] == rest + b;
      SplitFirst(a, k, rest);
      SplitFirst(a + b, k, rest + b);
      SplitAppend(rest, b);
      Associate([a[..k]], Split(rest).0, Split(Split(rest).1 + b).0);
    }
  }

  lemma SplitFirst(text: string, k: nat, rest: string)
    requires IndexOf(text, '\n', 0) == Some(k) && rest == text[k + 1..]
    ensures Split(text).0 == [text[..k]] + Split(rest).0 && Split(text).1 == Split(rest).1
  {
  }

  lemma {:induction false} RestHasNoLineFeed(text: string)
    ensures '\n' !in Split(text).1
    decreases |text|
  {
    match IndexOf(text, '\n', 0)
    case None =>
    case Some(k) => RestHasNoLineFeed(text[k + 1..]);
  }

  /** However a text is cut into chunks, the same lines come out and the same rest is kept. */
  lemma {:induction false} ChunkingDoesNotMatter(rest: string, chunks: seq<string>)
    requires '\n' !in rest
    ensures Fed(rest, chunks) == Split(rest + Joined(chunks))
    decreases |chunks|
  {
    if chunks == [] {
      assert rest + [] == rest;
    } else {
      RestHasNoLineFeed(rest + chunks[0]);
      ChunkingDoesNotMatter(Split(rest + chunks[0]).1, chunks[1..]);
      SplitAppend(rest + chunks[0], Joined(chunks[1..]));
      Associate(rest, chunks[0], Joined(chunks[1..]));
    }
  }

  // ---------------------------------------------------------------------------------------------
  // Lines that end in LF or CRLF

  /** A line without the carriage return of a CRLF. */
  function Chop(line: string): string {
    if line != "" && line[|line| - 1] == '\r' then line[..|line| - 1] else line
  }

  function Chopped(pieces: seq<string>): (r: seq<string>)
    ensures |r| == |pieces|
    ensures forall k | 0 <= k < |r| :: r[k] == Chop(pieces[k])
  {
    seq(|pieces|, k requires 0 <= k < |pieces| => Chop(pieces[k]))
  }

  predicate LineEndAt(text: string, i: nat) {
    i < |text| && (text[i] == '\n' || (text[i] == '\r' && i + 1 < |text| && text[i + 1] == '\n'))
  }

  /** search(/\r?\n/), from `i` on. */
  function LineEnd(text: string, i: nat): (r: Option<nat>)
    ensures r.Some? ==> i <= r.value && LineEndAt(text, r.value) && forall k | i <= k < r.value :: !LineEndAt(text, k)
    ensures r.None? ==> forall k | i <= k < |text| :: !LineEndAt(text, k)
    decreases |text| - i
  {
    if i >= |text| then None else if LineEndAt(text, i) then Some(i) else LineEnd(text, i + 1)
  }

  /** Where the text goes on behind the line end at `i`. */
  function Behind(text: string, i: nat): (r: nat)
    requires LineEndAt(text, i)
    ensures i < r <= |text|
  {
    if text[i] == '\r' then i + 2 else i + 1
  }

  /** The first line end cuts off what the first line feed does, less its carriage return. */
  lemma LineEndIsLineFeed(text: string)
    ensures LineEnd(text, 0).None? ==> Split(text) == ([], text)
    ensures LineEnd(text, 0).Some? ==> Split(text).0 != [] && text[..LineEnd(text, 0).value] == Chop(Split(text).0[0])
    ensures LineEnd(text, 0).Some? ==>
              Split(text) == ([Split(text).0[0]] + Split(text[Behind(text, LineEnd(text, 0).value)..]).0,
                              Split(text[Behind(text, LineEnd(text, 0).value)..]).1)
  {
    match LineEnd(text, 0)
    case None =>
      forall k | 0 <= k < |text|
        ensures text[k] != '\n'
      {
        assert !LineEndAt(text, k);
      }
    case Some(i) =>
      var k := Behind(text, i) - 1;
      forall j | 0 <= j < i
        ensures text[j] != '\n'
      {
        assert !LineEndAt(text, j);
      }
      IndexIs(text, '\n', 0, k);
      assert i > 0 ==> !LineEndAt(text, i - 1);
  }

  lemma ChoppedMore(s: seq<string>, piece: string, later: seq<string>)
    ensures s + Chopped([piece] + later) == s + [Chop(piece)] + Chopped(later)
  {
    assert Chopped([piece] + later) == [Chop(piece)] + Chopped(later);
    MoveOne(s, Chop(piece), Chopped(later));
  }

  /** split(/\r?\n/): the lines of a text, the last of which is its unfinished rest. */
  method SplitLines(text: string) returns (lines: seq<string>, rest: string)
    ensures lines == Chopped(Split(text).0) && rest == Split(text).1
  {
    lines, rest := [], text;
    assert [] + Chopped(Split(text).0) == Chopped(Split(text).0);
    while LineEnd(rest, 0).Some?
      invariant lines + Chopped(Split(rest).0) == Chopped(Split(text).0) && Split(rest).1 == Split(text).1
      decreases |rest|
    {
      LineEndIsLineFeed(rest);
      var i := LineEnd(rest, 0).value;
      ChoppedMore(lines, Split(rest).0[0], Split(rest[Behind(rest, i)..]).0);
      lines := lines + [rest[..i]];
      rest := rest[Behind(rest, i)..];
    }
    LineEndIsLineFeed(rest);
    assert lines + Chopped([]) == lines;
  }

  /** Lines written out, line `k` with CRLF where `crlf[k]` and with LF otherwise. */
  function Written(lines: seq<string>, crlf: seq<bool>): string
    requires |crlf| == |lines|
  {
    if lines == [] then ""
    else lines[0] + (if crlf[0] then ['\r'] else []) + ['\n'] + Written(lines[1..], crlf[1..])
  }

  /** Line `k` as the reader sees it: it takes a carriage return before a bare LF for part of the line end. */
  function AsRead(lines: seq<string>, crlf: seq<bool>): (r: seq<string>)
    requires |crlf| == |lines|
  {
    seq(|lines|, k requires 0 <= k < |lines| => if crlf[k] then lines[k] else Chop(lines[k]))
  }

  lemma OneMoreRead(lines: seq<string>, crlf: seq<bool>, piece: string, later: seq<string>)
    requires |crlf| == |lines| > 0
    requires piece == lines[0] + (if crlf[0] then ['\r'] else [])
    requires Chopped(later) == AsRead(lines[1..], crlf[1..])
    ensures Chopped([piece] + later) == AsRead(lines, crlf)
  {
    assert |later| == |Chopped(later)| == |lines| - 1;
    forall k | 0 <= k < |lines|
      ensures Chopped([piece] + later)[k] == AsRead(lines, crlf)[k]
    {
      assert k > 0 ==> Chopped(later)[k - 1] == AsRead(lines[1..], crlf[1..])[k - 1];
    }
  }

  lemma {:induction false} WrittenAsRead(lines: seq<string>, crlf: seq<bool>)
    requires |crlf| == |lines| && forall k | 0 <= k < |lines| :: '\n' !in lines[k]
    ensures Split(Written(lines, crlf)).1 == "" && Chopped(Split(Written(lines, crlf)).0) == AsRead(lines, crlf)
  {
    if lines != [] {
      var piece := lines[0] + (if crlf[0] then ['\r'] else []);
      SplitOff(piece, Written(lines[1..], crlf[1..]));
      WrittenAsRead(lines[1..], crlf[1..]);
      OneMoreRead(lines, crlf, piece, Split(Written(lines[1..], crlf[1..])).0);
    }
  }

  ghost predicate Intact(lines: seq<string>, crlf: seq<bool>)
    requires |crlf| == |lines|
  {
    forall k | 0 <= k < |lines| && !crlf[k] && lines[k] != "" :: lines[k][|lines[k]| - 1] != '\r'
  }

  /** Lines come back unchanged if and only if none ends in a carriage return before a bare LF. */
  lemma WrittenIsRead(lines: seq<string>, crlf: seq<bool>)
    requires |crlf| == |lines| && forall k | 0 <= k < |lines| :: '\n' !in lines[k]
    ensures Chopped(Split(Written(lines, crlf)).0) == lines <==> Intact(lines, crlf)
  {
    WrittenAsRead(lines, crlf);
    var r := AsRead(lines, crlf);
    forall k | 0 <= k < |lines|
      ensures r[k] == lines[k] <==> (!crlf[k] && lines[k] != "" ==> lines[k][|lines[k]| - 1] != '\r')
    {
    }
    if Intact(lines, crlf) {
      assert r == lines;
    }
  }
}
