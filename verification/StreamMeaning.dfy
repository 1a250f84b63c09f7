/** What lines, messages and events are, read off the text of a stream. */
module StreamMeaning {
  import opened Characters
  import opened Options
  import opened Lines
  import opened McpTransports

  // ---------------------------------------------------------------------------------------------
  // Lines

  ghost predicate WithoutLineFeeds(lines: seq<string>, rest: string) {
    '\n' !in rest && forall k | 0 <= k < |lines| :: '\n' !in lines[k]
  }

  /** The lines and the rest are the only ones without a line feed that make the text. */
  lemma {:induction false} SplitIsOnly(text: string, lines: seq<string>, rest: string)
    ensures Split(text) == (lines, rest) <==> WithoutLineFeeds(lines, rest) && Unsplit(lines, rest) == text
    decreases |lines|
  {
    SplitRebuilds(text);
    PiecesWithoutLineFeeds(text);
    if WithoutLineFeeds(lines, rest) && Unsplit(lines, rest) == text {
      UnsplitIsSplit(lines, rest);
    }
  }

  lemma {:induction false} PiecesWithoutLineFeeds(text: string)
    ensures WithoutLineFeeds(Split(text).0, Split(text).1)
    decreases |text|
  {
    var k := IndexOf(text, '\n', 0);
    if k.Some? {
      PiecesWithoutLineFeeds(text[k.value + 1..]);
    }
  }

  lemma {:induction false} UnsplitIsSplit(lines: seq<string>, rest: string)
    requires WithoutLineFeeds(lines, rest)
    ensures Split(Unsplit(lines, rest)) == (lines, rest)
  {
    if lines == [] {
      Unfinished(rest);
    } else {
      UnsplitIsSplit(lines[1..], rest);
      SplitOff(lines[0], Unsplit(lines[1..], rest));
      assert lines == [lines[0]] + lines[1..];
    }
  }

  // ---------------------------------------------------------------------------------------------
  // Messages, one per line

  ghost predicate Blank(s: string) { forall k | 0 <= k < |s| :: IsSpace(s[k]) }

  /** `core` is `s` without the white space at its ends. */
  ghost predicate TrimmedTo(s: string, core: string) {
    && (core != "" ==> !IsSpace(core[0]) && !IsSpace(core[|core| - 1]))
    && exists i, j :: 0 <= i <= j <= |s| && s[i..j] == core && Blank(s[..i]) && Blank(s[j..])
  }

  lemma {:induction false} StartTrimmed(s: string) returns (i: nat)
    ensures i <= |s| && TrimStart(s) == s[i..] && Blank(s[..i]) && (i < |s| ==> !IsSpace(s[i]))
  {
    i := 0;
    if s != "" && IsSpace(s[0]) {
      var n := StartTrimmed(s[1..]);
      i := n + 1;
      assert s[1..][n..] == s[i..];
      assert forall k | 0 < k < i :: s[k] == s[1..][..n][k - 1];
    }
  }

  lemma {:induction false} EndTrimmed(s: string) returns (j: nat)
    ensures j <= |s| && TrimEnd(s) == s[..j] && Blank(s[j..]) && (j > 0 ==> !IsSpace(s[j - 1]))
    decreases |s|
  {
    j := |s|;
    if s != "" && IsSpace(s[|s| - 1]) {
      var front := s[..|s| - 1];
      j := EndTrimmed(front);
      assert front[..j] == s[..j];
      forall k | 0 <= k < |s[j..]|
        ensures IsSpace(s[j..][k])
      {
        assert k < |s| - 1 - j ==> s[j..][k] == front[j..][k];
      }
    }
  }

  lemma TrimSays(s: string)
    ensures TrimmedTo(s, Trim(s))
  {
    var i := StartTrimmed(s);
    var j := EndTrimmed(s[i..]);
    assert s[i..][..j] == s[i..i + j] && s[i + j..] == s[i..][j..];
  }

  /** What a line says: nothing if it is blank, and otherwise what its text without white space at the ends parses to. */
  ghost predicate SaysLine<T>(parse: string -> Option<T>, line: string, message: Option<T>) {
    if Blank(line) then message == None else exists core :: TrimmedTo(line, core) && message == parse(core)
  }

  ghost function Known<T>(said: seq<Option<T>>): seq<T> {
    if said == [] then []
    else Known(said[..|said| - 1]) + (match said[|said| - 1] case None => [] case Some(m) => [m])
  }

  lemma BlankIsEmpty(s: string)
    ensures Blank(s) <==> Trim(s) == ""
  {
    TrimSays(s);
    if Trim(s) == "" {
      var i, j :| 0 <= i <= j <= |s| && s[i..j] == Trim(s) && Blank(s[..i]) && Blank(s[j..]);
      forall k | 0 <= k < |s|
        ensures IsSpace(s[k])
      {
        assert if k < i then s[k] == s[..i][k] else s[k] == s[j..][k - j];
      }
    } else {
      var i, j :| 0 <= i <= j <= |s| && s[i..j] == Trim(s);
      assert s[i] == Trim(s)[0];
    }
  }

  lemma LineSays<T>(parse: string -> Option<T>, line: string) returns (message: Option<T>)
    ensures SaysLine(parse, line, message)
    ensures message == if Trim(line) == "" then None else parse(Trim(line))
  {
    BlankIsEmpty(line);
    TrimSays(line);
    message := if Trim(line) == "" then None else parse(Trim(line));
  }

  /** The messages heard are what the lines say, in order. */
  lemma {:induction false} HeardSays<T>(parse: string -> Option<T>, lines: seq<string>) returns (said: seq<Option<T>>)
    ensures |said| == |lines| && forall k | 0 <= k < |lines| :: SaysLine(parse, lines[k], said[k])
    ensures Heard(parse, lines) == Known(said)
    decreases |lines|
  {
    if lines == [] {
      said := [];
    } else {
      var front, last := lines[..|lines| - 1], lines[|lines| - 1];
      said := HeardSays(parse, front);
      var message := LineSays(parse, last);
      HeardLast(parse, front, last);
      assert lines == front + [last];
      assert (said + [message])[..|said|] == said;
      said := said + [message];
    }
  }

  lemma {:induction false} HeardLast<T>(parse: string -> Option<T>, front: seq<string>, line: string)
    ensures Heard(parse, front + [line])
         == Heard(parse, front)
            + (if Trim(line) == "" || parse(Trim(line)).None? then [] else [parse(Trim(line)).value])
  {
    if front == [] {
      assert front + [line] == [line] && [line][1..] == [];
    } else {
      HeardLast(parse, front[1..], line);
      assert (front + [line])[1..] == front[1..] + [line];
    }
  }

  // ---------------------------------------------------------------------------------------------
  // Server-sent events, line by line

  /** A line's field and value: up to the first colon, and behind it less one space; or all of the line. */
  ghost predicate FieldIs(line: string, name: string, val: string) {
    ':' !in name &&
    if ':' in line then line == name + ": " + val || (line == name + ":" + val && (val == "" || val[0] != ' '))
    else line == name && val == ""
  }

  lemma FieldSays(line: string)
    ensures FieldIs(line, Field(line).0, Field(line).1)
  {
    var k := IndexOf(line, ':', 0);
    if k.Some? {
      var behind := line[k.value + 1..];
      assert line == line[..k.value] + ":" + behind;
      if behind != "" && behind[0] == ' ' {
        assert line == line[..k.value] + ": " + behind[1..];
      }
    }
  }

  lemma FieldIsOnly(line: string, name: string, val: string)
    requires FieldIs(line, name, val)
    ensures Field(line) == (name, val)
  {
    var k := IndexOf(line, ':', 0);
    if k.Some? {
      assert line[|name|] == ':' && forall j | 0 <= j < |name| :: line[j] == name[j];
      IndexIs(line, ':', 0, |name|);
      assert line[..|name|] == name;
      if line == name + ": " + val {
        assert line[|name| + 1..] == " " + val;
      } else {
        assert line[|name| + 1..] == val;
      }
    }
  }

  /** What a line that is not empty does: a comment nothing, `event` gives the name, `data` a line of the data, and
      any other field nothing. */
  lemma LineTaken(r: Reading, line: string, name: string, val: string)
    requires line != "" && FieldIs(line, name, val)
    ensures Take(r, line).out == r.out
    ensures Take(r, line).event == if name == "event" then val else r.event
    ensures Take(r, line).data == if name == "data" then r.data + [val] else r.data
  {
    FieldIsOnly(line, name, val);
  }

  /** What an empty line does: without data nothing comes out, and otherwise the data joined by line feeds,
      under the name given or as `message`. In both cases the next event starts from nothing. */
  lemma EmptyLineTaken(r: Reading)
    ensures Take(r, "").event == "" && Take(r, "").data == []
    ensures r.data == [] ==> Take(r, "").out == r.out
    ensures r.data != [] ==> |Take(r, "").out| == |r.out| + 1 && Take(r, "").out[..|r.out|] == r.out
    ensures r.data != [] ==> Take(r, "").out[|r.out|].name == if r.event == "" then "message" else r.event
    ensures r.data != [] ==>
              Take(r, "").out[|r.out|].data + "\n" == Unsplit(r.data, "")
  {
    if r.data != [] {
      JoinedWithEnd(r.data);
    }
  }

  lemma {:induction false} JoinedWithEnd(pieces: seq<string>)
    requires pieces != []
    ensures JoinLines(pieces) + "\n" == Unsplit(pieces, "")
  {
    if |pieces| == 1 {
      assert Unsplit(pieces[1..], "") == "";
    } else {
      JoinedWithEnd(pieces[1..]);
      assert JoinLines(pieces) + "\n" == pieces[0] + ['\n'] + (JoinLines(pieces[1..]) + "\n");
    }
  }
}
