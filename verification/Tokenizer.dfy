/** The lexer of the structural search tools: one pass that turns source text into tokens with positions. */
module Tokenizer {
  import opened Characters

  datatype Kind = Ident | Metavar | MultiMetavar | Str | Number | Punct | Comment | Group

  datatype Token = Token(kind: Kind, value: string, start: nat, end: nat, line: nat, col: nat, children: seq<Token>)

  // ---------------------------------------------------------------------------------------------
  // Characters

  predicate IsDigit(c: char) { '0' <= c <= '9' }

  predicate IsLetter(c: char) { 'a' <= c <= 'z' || 'A' <= c <= 'Z' }

  predicate IsWord(c: char) { IsLetter(c) || IsDigit(c) || c == '_' }

  predicate IsIdent(c: char) { IsWord(c) || c == '$' }

  predicate IsNumeric(c: char) {
    IsDigit(c) || 'a' <= c <= 'f' || 'A' <= c <= 'F' || c == 'x' || c == 'X' || c == '_' || c == '.'
  }

  predicate NotNewline(c: char) { c != '\n' }

  predicate IsQuote(c: char) { c == '"' || c == '\'' || c == '`' }

  predicate At(code: string, i: nat, c: char) { i < |code| && code[i] == c }

  // ---------------------------------------------------------------------------------------------
  // Where tokens end

  /** End of the longest run of characters satisfying `p` from `i` on. */
  function RunEnd(code: string, i: nat, p: char -> bool): (r: nat)
    requires i <= |code|
    ensures i <= r <= |code|
    ensures forall k | i <= k < r :: p(code[k])
    ensures r < |code| ==> !p(code[r])
    decreases |code| - i
  {
    if i < |code| && p(code[i]) then RunEnd(code, i + 1, p) else i
  }

  predicate ClosesComment(code: string, i: nat) { At(code, i, '*') && At(code, i + 1, '/') }

  /** End of a block comment: behind the first closing mark from `i` on, or the end of the text. */
  function CommentEnd(code: string, i: nat): (r: nat)
    requires i <= |code|
    ensures i <= r <= |code|
    ensures r < |code| || (i + 2 <= r && ClosesComment(code, r - 2)) || forall k | i <= k < r :: !ClosesComment(code, k)
    decreases |code| - i
  {
    if i == |code| then i else if ClosesComment(code, i) then i + 2 else CommentEnd(code, i + 1)
  }

  /** End of a string whose body starts at `i`: a backslash takes the next character with it, even past
      the end of the text. */
  function StringEnd(code: string, i: nat, quote: char): (r: nat)
    requires i <= |code| + 1
    ensures i <= r <= |code| + 1
    ensures r == |code| + 1 && i <= |code| ==> code != [] && code[|code| - 1] == '\\'
    decreases |code| + 1 - i
  {
    if i >= |code| then i
    else if code[i] == '\\' then StringEnd(code, i + 2, quote)
    else if code[i] == quote then i + 1
    else StringEnd(code, i + 1, quote)
  }

  const THREE := ["===", "!==", "...", ">>=", "<<="]
  const TWO := ["==", "!=", "<=", ">=", "=>", "->", "::", "&&", "||", "??", "+=", "-=", "*=", "/=", "++", "--"]

  function Clip(code: string, i: nat, n: nat): string
    requires i <= |code|
  {
    if i + n <= |code| then code[i..i + n] else code[i..]
  }

  function PunctEnd(code: string, i: nat): (r: nat)
    requires i < |code|
    ensures i < r <= |code|
  {
    if Clip(code, i, 3) in THREE then i + 3 else if Clip(code, i, 2) in TWO then i + 2 else i + 1
  }

  function MetavarEnd(code: string, i: nat): (r: nat)
    requires At(code, i, '$')
    ensures i < r <= |code|
  {
    var dollars := if At(code, i + 1, '$') then if At(code, i + 2, '$') then 3 else 2 else 1;
    RunEnd(code, i + dollars, IsWord)
  }

  /** Kind and end of the token that starts at `i`. */
  function NextToken(code: string, i: nat, isPattern: bool): (r: (Kind, nat))
    requires i < |code| && !IsSpace(code[i])
    ensures i < r.1 <= |code| + 1
    ensures r.1 == |code| + 1 ==> r.0 == Str && code[|code| - 1] == '\\'
    ensures r.0 != Group
  {
    var c := code[i];
    if c == '/' && At(code, i + 1, '/') then (Comment, RunEnd(code, i, NotNewline))
    else if c == '/' && At(code, i + 1, '*') then (Comment, CommentEnd(code, i + 2))
    else if c == '#' && !isPattern then (Comment, RunEnd(code, i, NotNewline))
    else if c == '$' && isPattern then (if At(code, i + 1, '$') then MultiMetavar else Metavar, MetavarEnd(code, i))
    else if IsQuote(c) then (Str, StringEnd(code, i + 1, c))
    else if IsDigit(c) then (Number, RunEnd(code, i, IsNumeric))
    else if IsLetter(c) || c == '_' || c == '$' then (Ident, RunEnd(code, i, IsIdent))
    else (Punct, PunctEnd(code, i))
  }

  // ---------------------------------------------------------------------------------------------
  // Positions

  /** Line of position `i`: one more than the newlines before it. */
  function LineAt(code: string, i: nat): nat {
    if i == 0 then 1 else LineAt(code, i - 1) + if At(code, i - 1, '\n') then 1 else 0
  }

  /** Column of position `i`: one more than its distance from the start of its line. */
  function ColAt(code: string, i: nat): nat {
    if i == 0 || At(code, i - 1, '\n') then 1 else ColAt(code, i - 1) + 1
  }

  /** code.slice(a, b) */
  function Slice(code: string, a: nat, b: nat): (r: string)
    ensures a <= b <= |code| ==> r == code[a..b]
    ensures a <= |code| < b ==> r == code[a..]
    ensures a > |code| || a > b ==> r == ""
  {
    var hi := if b < |code| then b else |code|;
    if a <= hi then code[a..hi] else ""
  }

  function MakeToken(code: string, i: nat, isPattern: bool): Token
    requires i < |code| && !IsSpace(code[i])
  {
    var (kind, end) := NextToken(code, i, isPattern);
    Token(kind, Slice(code, i, end), i, end, LineAt(code, i), ColAt(code, i), [])
  }

  /** The tokens of the text from `i` on. */
  function Lex(code: string, i: nat, isPattern: bool): seq<Token>
    decreases |code| + 1 - i
  {
    if i >= |code| then []
    else if IsSpace(code[i]) then Lex(code, i + 1, isPattern)
    else [MakeToken(code, i, isPattern)] + Lex(code, NextToken(code, i, isPattern).1, isPattern)
  }

  // ---------------------------------------------------------------------------------------------
  // tokenize

  /** The scanner's position; `advance` moves it one character at a time. */
  class Scanner {
    const code: string
    var i: nat
    var line: nat
    var col: nat

    ghost predicate Valid()
      reads this
    {
      i <= |code| + 1 && line == LineAt(code, i) && col == ColAt(code, i)
    }

    constructor (code: string)
      ensures Valid() && this.code == code && i == 0
    {
      this.code, i, line, col := code, 0, 1, 1;
    }

    method Advance(n: nat)
      requires Valid() && i + n <= |code| + 1
      modifies this
      ensures Valid() && i == old(i) + n
    {
      for k := 0 to n
        invariant Valid() && i == old(i) + k
      {
        if i < |code| && code[i] == '\n' {
          line := line + 1;
          col := 1;
        } else {
          col := col + 1;
        }
        i := i + 1;
      }
    }

    method SkipRun(p: char -> bool)
      requires Valid() && i <= |code|
      modifies this
      ensures Valid() && i == RunEnd(code, old(i), p)
    {
      while i < |code| && p(code[i])
        invariant Valid() && i <= |code| && RunEnd(code, i, p) == RunEnd(code, old(i), p)
        decreases |code| - i
      {
        Advance(1);
      }
    }

    method SkipComment()
      requires Valid() && i + 2 <= |code|
      modifies this
      ensures Valid() && i == CommentEnd(code, old(i) + 2)
    {
      Advance(2);
      while i < |code| && !(code[i] == '*' && At(code, i + 1, '/'))
        invariant Valid() && i <= |code| && CommentEnd(code, i) == CommentEnd(code, old(i) + 2)
        decreases |code| - i
      {
        Advance(1);
      }
      if i < |code| {
        Advance(2);
      }
    }

    method SkipString()
      requires Valid() && i < |code|
      modifies this
      ensures Valid() && i == StringEnd(code, old(i) + 1, code[old(i)])
    {
      var quote := code[i];
      Advance(1);
      while i < |code|
        invariant Valid() && StringEnd(code, i, quote) == StringEnd(code, old(i) + 1, quote)
        decreases |code| + 1 - i
      {
        if code[i] == '\\' {
          Advance(2);
        } else if code[i] == quote {
          Advance(1);
          return;
        } else {
          Advance(1);
        }
      }
    }

    method SkipMetavar() returns (kind: Kind)
      requires Valid() && At(code, i, '$')
      modifies this
      ensures Valid() && i == MetavarEnd(code, old(i))
      ensures kind == if At(code, old(i) + 1, '$') then MultiMetavar else Metavar
    {
      if At(code, i + 1, '$') && At(code, i + 2, '$') {
        Advance(3);
        kind := MultiMetavar;
      } else if At(code, i + 1, '$') {
        Advance(2);
        kind := MultiMetavar;
      } else {
        Advance(1);
        kind := Metavar;
      }
      SkipRun(IsWord);
    }

    method SkipPunct()
      requires Valid() && i < |code|
      modifies this
      ensures Valid() && i == PunctEnd(code, old(i))
    {
      if Clip(code, i, 3) in THREE {
        Advance(3);
      } else if Clip(code, i, 2) in TWO {
        Advance(2);
      } else {
        Advance(1);
      }
    }

    /** Scans the token at the current position. */
    method Scan(isPattern: bool) returns (token: Token)
      requires Valid() && i < |code| && !IsSpace(code[i])
      modifies this
      ensures Valid() && token == MakeToken(code, old(i), isPattern) && i == token.end
    {
      var start, startLine, startCol, ch := i, line, col, code[i];
      var kind;
      if ch == '/' && At(code, i + 1, '/') {
        kind := Comment;
        SkipRun(NotNewline);
      } else if ch == '/' && At(code, i + 1, '*') {
        kind := Comment;
        SkipComment();
      } else if ch == '#' && !isPattern {
        kind := Comment;
        SkipRun(NotNewline);
      } else if ch == '$' && isPattern {
        kind := SkipMetavar();
      } else if IsQuote(ch) {
        kind := Str;
        SkipString();
      } else if IsDigit(ch) {
        kind := Number;
        SkipRun(IsNumeric);
      } else if IsLetter(ch) || ch == '_' || ch == '$' {
        kind := Ident;
        SkipRun(IsIdent);
      } else {
        kind := Punct;
        SkipPunct();
      }
      token := Token(kind, Slice(code, start, i), start, i, startLine, startCol, []);
    }

    /** One round of the main loop: skips one white-space character or yields one token. */
    method Next(isPattern: bool) returns (found: seq<Token>)
      requires Valid() && i < |code|
      modifies this
      ensures Valid() && i > old(i) && Lex(code, old(i), isPattern) == found + Lex(code, i, isPattern)
    {
      if IsSpace(code[i]) {
        Advance(1);
        found := [];
      } else {
        var token := Scan(isPattern);
        found := [token];
      }
    }
  }

  method Tokenize(code: string, isPattern: bool) returns (tokens: seq<Token>)
    ensures tokens == Lex(code, 0, isPattern)
  {
    tokens := [];
    var s := new Scanner(code);
    while s.i < |code|
      invariant s.Valid() && s.code == code
      invariant tokens + Lex(code, s.i, isPattern) == Lex(code, 0, isPattern)
      decreases |code| + 1 - s.i
    {
      var found := s.Next(isPattern);
      tokens := tokens + found;
    }
  }

  // ---------------------------------------------------------------------------------------------
  // What the tokens are

  ghost predicate Blank(code: string, a: nat, b: nat) {
    forall k | a <= k < b && k < |code| :: IsSpace(code[k])
  }

  /** The tokens cover the text from `from` on: in order, non-empty, disjoint, each the slice it claims
      to be at the line and column it claims, nothing but white space between them. */
  ghost predicate Tiles(code: string, tokens: seq<Token>, from: nat) {
    if tokens == [] then Blank(code, from, |code|)
    else
      var t := tokens[0];
      && from <= t.start < t.end <= |code| + 1 && t.start < |code| && Blank(code, from, t.start)
      && t.value == Slice(code, t.start, t.end) && t.line == LineAt(code, t.start) && t.col == ColAt(code, t.start)
      && (t.end > |code| <==> DanglesAt(code, t.start))
      && Tiles(code, tokens[1..], t.end)
  }

  /** How many backslashes stand directly before `j`, not counting any before `i`. */
  function Backslashes(code: string, i: nat, j: nat): nat
    requires j <= |code|
  {
    if j > i && code[j - 1] == '\\' then 1 + Backslashes(code, i, j - 1) else 0
  }

  /** The backslashes before `j` pair up, so that `j` itself is not escaped. */
  predicate Unescaped(code: string, i: nat, j: nat)
    requires j <= |code|
  {
    Backslashes(code, i, j) % 2 == 0
  }

  /** A string whose body starts at `i` is unterminated, and the text ends in a backslash that escapes nothing. */
  ghost predicate Dangles(code: string, i: nat, quote: char) {
    i <= |code| && !Unescaped(code, i, |code|) && forall j | i <= j < |code| && code[j] == quote :: !Unescaped(code, i, j)
  }

  /** Such a string starts at `start`. */
  ghost predicate DanglesAt(code: string, start: nat) {
    start < |code| && IsQuote(code[start]) && Dangles(code, start + 1, code[start])
  }

  /** Starting two characters later, behind a backslash, changes no parity. */
  lemma {:induction false} ParityBehindEscape(code: string, i: nat, j: nat)
    requires i + 2 <= j <= |code| && code[i] == '\\'
    ensures Unescaped(code, i, j) <==> Unescaped(code, i + 2, j)
  {
    if j > i + 2 && code[j - 1] == '\\' {
      ParityBehindEscape(code, i, j - 1);
    } else if j == i + 2 && code[i + 1] == '\\' {
      assert Backslashes(code, i, i + 1) == 1 + Backslashes(code, i, i);
    }
  }

  lemma {:induction false} RunBehindOther(code: string, i: nat, j: nat)
    requires i + 1 <= j <= |code| && code[i] != '\\'
    ensures Backslashes(code, i, j) == Backslashes(code, i + 1, j)
  {
    if j > i + 1 {
      RunBehindOther(code, i, j - 1);
    }
  }

  lemma DanglesBehindEscape(code: string, i: nat, quote: char)
    requires i + 2 <= |code| && code[i] == '\\' && quote != '\\'
    ensures Dangles(code, i, quote) <==> Dangles(code, i + 2, quote)
  {
    assert Backslashes(code, i, i + 1) == 1 + Backslashes(code, i, i);
    forall j | i + 2 <= j <= |code|
      ensures Unescaped(code, i, j) <==> Unescaped(code, i + 2, j)
    {
      ParityBehindEscape(code, i, j);
    }
  }

  lemma DanglesBehindOther(code: string, i: nat, quote: char)
    requires i < |code| && code[i] != '\\' && code[i] != quote
    ensures Dangles(code, i, quote) <==> Dangles(code, i + 1, quote)
  {
    forall j | i + 1 <= j <= |code|
      ensures Unescaped(code, i, j) <==> Unescaped(code, i + 1, j)
    {
      RunBehindOther(code, i, j);
    }
  }

  /** A string token ends past the end of the text if and only if the string dangles. */
  lemma {:induction false} StringEndsPast(code: string, i: nat, quote: char)
    requires i <= |code| && quote != '\\'
    ensures StringEnd(code, i, quote) == |code| + 1 <==> Dangles(code, i, quote)
    decreases |code| - i
  {
    if i < |code| {
      if code[i] == '\\' {
        if i + 2 <= |code| {
          DanglesBehindEscape(code, i, quote);
          StringEndsPast(code, i + 2, quote);
        } else {
          assert Backslashes(code, i, i + 1) == 1 + Backslashes(code, i, i);
        }
      } else if code[i] == quote {
        assert Unescaped(code, i, i);
      } else {
        DanglesBehindOther(code, i, quote);
        StringEndsPast(code, i + 1, quote);
      }
    }
  }

  lemma {:induction false} LexTiles(code: string, i: nat, isPattern: bool)
    ensures Tiles(code, Lex(code, i, isPattern), i)
    decreases |code| + 1 - i
  {
    if i < |code| {
      if IsSpace(code[i]) {
        LexTiles(code, i + 1, isPattern);
        TilesAfterSpace(code, Lex(code, i + 1, isPattern), i);
      } else {
        if IsQuote(code[i]) {
          StringEndsPast(code, i + 1, code[i]);
        }
        LexTiles(code, NextToken(code, i, isPattern).1, isPattern);
      }
    }
  }

  lemma TilesAfterSpace(code: string, tokens: seq<Token>, i: nat)
    requires i < |code| && IsSpace(code[i]) && Tiles(code, tokens, i + 1)
    ensures Tiles(code, tokens, i)
  {
  }

  /** Tokens put back together with the white space between them give the text. */
  function Rebuilt(code: string, tokens: seq<Token>, from: nat): string {
    if tokens == [] then Slice(code, from, |code|)
    else Slice(code, from, tokens[0].start) + tokens[0].value + Rebuilt(code, tokens[1..], tokens[0].end)
  }

  lemma SliceSplit(code: string, a: nat, b: nat)
    requires a <= b
    ensures Slice(code, a, b) + Slice(code, b, |code|) == Slice(code, a, |code|)
  {
  }

  /** No character is lost: the text is the tokens with the white space between them. */
  lemma {:induction false} TilesRebuild(code: string, tokens: seq<Token>, from: nat)
    requires Tiles(code, tokens, from)
    ensures Rebuilt(code, tokens, from) == Slice(code, from, |code|)
  {
    if tokens != [] {
      var t := tokens[0];
      TilesRebuild(code, tokens[1..], t.end);
      SliceSplit(code, from, t.start);
      SliceSplit(code, t.start, t.end);
      assert Slice(code, from, t.start) + t.value + Slice(code, t.end, |code|)
          == Slice(code, from, t.start) + (t.value + Slice(code, t.end, |code|));
    }
  }

  /** Tokens by position: ordered, disjoint, non-empty; only the last can reach past the end of the text,
      and it does exactly when an unterminated string starts there and the text ends in a backslash that
      escapes nothing. */
  lemma {:induction false} TilesAt(code: string, tokens: seq<Token>, from: nat, k: nat)
    requires Tiles(code, tokens, from) && k < |tokens|
    ensures from <= tokens[k].start < tokens[k].end && tokens[k].value == Slice(code, tokens[k].start, tokens[k].end)
    ensures k + 1 < |tokens| ==> tokens[k].end <= tokens[k + 1].start && tokens[k].end <= |code|
    ensures tokens[k].end > |code| <==> DanglesAt(code, tokens[k].start)
  {
    if k > 0 {
      TilesAt(code, tokens[1..], tokens[0].end, k - 1);
      assert tokens[k] == tokens[1..][k - 1];
      assert k + 1 < |tokens| ==> tokens[k + 1] == tokens[1..][k];
    } else if |tokens| > 1 {
      assert tokens[1] == tokens[1..][0];
    }
  }

  /** A sequence metavariable starts with two dollar signs, a single one does not: their names differ. */
  predicate Named(t: Token) {
    && (t.kind == MultiMetavar ==> |t.value| >= 2 && t.value[..2] == "$$")
    && (t.kind == Metavar ==> |t.value| >= 1 && !(|t.value| >= 2 && t.value[..2] == "$$"))
  }

  lemma TokenIsNamed(code: string, i: nat, isPattern: bool)
    requires i < |code| && !IsSpace(code[i])
    ensures Named(MakeToken(code, i, isPattern)) && MakeToken(code, i, isPattern).children == []
  {
    var t := MakeToken(code, i, isPattern);
    if t.kind == MultiMetavar {
      assert t.value[..2] == [code[i], code[i + 1]];
    } else if t.kind == Metavar && |t.value| >= 2 {
      assert t.value[1] == code[i + 1];
    }
  }

  lemma {:induction false} LexNamed(code: string, i: nat, isPattern: bool)
    ensures forall k | 0 <= k < |Lex(code, i, isPattern)| ::
              var t := Lex(code, i, isPattern)[k]; Named(t) && t.kind != Group && t.children == []
    decreases |code| + 1 - i
  {
    if i < |code| {
      if IsSpace(code[i]) {
        LexNamed(code, i + 1, isPattern);
      } else {
        TokenIsNamed(code, i, isPattern);
        LexNamed(code, NextToken(code, i, isPattern).1, isPattern);
      }
    }
  }
}
