/** What a token is, read off the text: its kind from the characters at its start, its end from those that follow. */
module TokenMeaning {
  import opened Characters
  import opened Tokenizer

  ghost predicate StartsWith(code: string, i: nat, mark: string) {
    i + |mark| <= |code| && code[i..i + |mark|] == mark
  }

  ghost predicate LetterOr(c: char, more: set<char>) { 'a' <= c <= 'z' || 'A' <= c <= 'Z' || c in more }

  ghost predicate DigitOr(c: char, more: set<char>) { '0' <= c <= '9' || c in more }

  // ---------------------------------------------------------------------------------------------
  // Kinds

  /** The kind of a token, by what stands at its start. */
  ghost predicate KindFits(code: string, t: Token, isPattern: bool)
    requires t.start < |code|
  {
    var i, c := t.start, code[t.start];
    && (t.kind == Comment <==> StartsWith(code, i, "//") || StartsWith(code, i, "/*") || (c == '#' && !isPattern))
    && (t.kind == Str <==> c in {'"', '\'', '`'})
    && (t.kind == Number <==> '0' <= c <= '9')
    && (t.kind == Ident <==> LetterOr(c, {'_'}) || (c == '$' && !isPattern))
    && (t.kind == MultiMetavar <==> isPattern && StartsWith(code, i, "$$"))
    && (t.kind == Metavar <==> isPattern && c == '$' && !StartsWith(code, i, "$$"))
    && t.kind != Group
  }

  lemma KindOfToken(code: string, i: nat, isPattern: bool)
    requires i < |code| && !IsSpace(code[i])
    ensures KindFits(code, MakeToken(code, i, isPattern), isPattern)
  {
    TwoMarks(code, i);
  }

  /** Two characters of the text, one by one. */
  lemma TwoMarks(code: string, i: nat)
    requires i < |code|
    ensures StartsWith(code, i, "//") <==> code[i] == '/' && At(code, i + 1, '/')
    ensures StartsWith(code, i, "/*") <==> code[i] == '/' && At(code, i + 1, '*')
    ensures StartsWith(code, i, "*/") <==> code[i] == '*' && At(code, i + 1, '/')
    ensures StartsWith(code, i, "$$") <==> code[i] == '$' && At(code, i + 1, '$')
    ensures StartsWith(code, i, "$$$") <==> code[i] == '$' && At(code, i + 1, '$') && At(code, i + 2, '$')
  {
    if i + 1 < |code| {
      assert code[i..i + 2] == [code[i], code[i + 1]];
    }
    if i + 2 < |code| {
      assert code[i..i + 3] == [code[i], code[i + 1], code[i + 2]];
    }
  }

  // ---------------------------------------------------------------------------------------------
  // Ends

  /** The longest run of such characters from `i` on. */
  ghost predicate LongestRun(code: string, i: nat, end: nat, p: char -> bool) {
    i <= end <= |code| && (forall k | i <= k < end :: p(code[k])) && (end < |code| ==> !p(code[end]))
  }

  /** Behind the first place from `i` on where the mark stands, or at the end of the text if it does not. */
  ghost predicate BehindFirst(code: string, i: nat, end: nat, mark: string) {
    || (end >= i + |mark| && StartsWith(code, end - |mark|, mark) && forall k | i <= k < end - |mark| :: !StartsWith(code, k, mark))
    || (end == |code| && forall k | i <= k < |code| :: !StartsWith(code, k, mark))
  }

  /** Behind the first quote from `i` on that an even run of backslashes precedes; without one, at the end of
      the text, or one behind it if a backslash there escapes nothing. */
  ghost predicate BehindQuote(code: string, i: nat, end: nat, quote: char)
    requires i <= |code|
  {
    || (i < end <= |code| && ClosesAt(code, i, end - 1, quote) && forall k | i <= k < end - 1 :: !ClosesAt(code, i, k, quote))
    || (end == (if Backslashes(code, i, |code|) % 2 == 1 then |code| + 1 else |code|) &&
        forall k | i <= k < |code| :: !ClosesAt(code, i, k, quote))
  }

  ghost predicate ClosesAt(code: string, i: nat, k: nat, quote: char)
    requires k < |code|
  {
    code[k] == quote && Backslashes(code, i, k) % 2 == 0
  }

  /** The listed operators of three and of two characters. */
  ghost predicate LongOperator(op: string) { op in {"===", "!==", "...", ">>=", "<<="} }

  ghost predicate ShortOperator(op: string) {
    op in {"==", "!=", "<=", ">=", "=>", "->", "::", "&&", "||", "??", "+=", "-=", "*=", "/=", "++", "--"}
  }

  ghost predicate OperatorAt(code: string, i: nat, end: nat) {
    if i + 3 <= |code| && LongOperator(code[i..i + 3]) then end == i + 3
    else if i + 2 <= |code| && ShortOperator(code[i..i + 2]) then end == i + 2
    else end == i + 1
  }

  ghost predicate OnLine(c: char) { c != '\n' }

  ghost predicate OfNumber(c: char) {
    DigitOr(c, {'a', 'b', 'c', 'd', 'e', 'f', 'A', 'B', 'C', 'D', 'E', 'F', 'x', 'X', '_', '.'})
  }

  ghost predicate OfWord(c: char) { LetterOr(c, {'_'}) || DigitOr(c, {}) }

  ghost predicate OfName(c: char) { LetterOr(c, {'_', '$'}) || DigitOr(c, {}) }

  /** Where a token of its kind ends. */
  ghost predicate EndFits(code: string, t: Token)
    requires t.start < |code|
  {
    var i, c := t.start, code[t.start];
    match t.kind
    case Comment => if StartsWith(code, i, "/*") then BehindFirst(code, i + 2, t.end, "*/") else LongestRun(code, i, t.end, OnLine)
    case Str => BehindQuote(code, i + 1, t.end, c)
    case Number => LongestRun(code, i, t.end, OfNumber)
    case Ident => LongestRun(code, i, t.end, OfName)
    case Metavar => LongestRun(code, i + 1, t.end, OfWord)
    case MultiMetavar =>
      LongestRun(code, if StartsWith(code, i, "$$$") then i + 3 else i + 2, t.end, OfWord)
    case Punct => OperatorAt(code, i, t.end)
    case Group => false
  }

  lemma RunIsLongest(code: string, i: nat, p: char -> bool, q: char -> bool)
    requires i <= |code| && forall c :: p(c) <==> q(c)
    ensures LongestRun(code, i, RunEnd(code, i, p), q)
  {
  }

  lemma {:induction false} CommentClosesFirst(code: string, i: nat)
    requires i <= |code|
    ensures BehindFirst(code, i, CommentEnd(code, i), "*/")
    decreases |code| - i
  {
    if i < |code| {
      TwoMarks(code, i);
      if !ClosesComment(code, i) {
        CommentClosesFirst(code, i + 1);
      }
    }
  }

  lemma {:induction false} StringClosesFirst(code: string, i: nat, quote: char)
    requires i <= |code| && quote != '\\'
    ensures BehindQuote(code, i, StringEnd(code, i, quote), quote)
    decreases |code| - i
  {
    if i < |code| {
      if code[i] == '\\' {
        if i + 2 <= |code| {
          StringClosesFirst(code, i + 2, quote);
          BehindEscape(code, i, StringEnd(code, i, quote), quote);
        } else {
          assert Backslashes(code, i, i + 1) == 1 + Backslashes(code, i, i);
        }
      } else if code[i] != quote {
        StringClosesFirst(code, i + 1, quote);
        BehindOther(code, i, StringEnd(code, i, quote), quote);
      } else {
        assert ClosesAt(code, i, i, quote);
      }
    }
  }

  lemma BehindEscape(code: string, i: nat, end: nat, quote: char)
    requires i + 2 <= |code| && code[i] == '\\' && quote != '\\' && BehindQuote(code, i + 2, end, quote)
    ensures BehindQuote(code, i, end, quote)
  {
    assert Backslashes(code, i, i + 1) == 1 + Backslashes(code, i, i);
    forall k | i + 2 <= k <= |code|
      ensures Backslashes(code, i, k) % 2 == Backslashes(code, i + 2, k) % 2
    {
      ParityBehindEscape(code, i, k);
      assert Unescaped(code, i, k) <==> Unescaped(code, i + 2, k);
    }
    forall k | i + 2 <= k < |code|
      ensures ClosesAt(code, i, k, quote) <==> ClosesAt(code, i + 2, k, quote)
    {
    }
  }

  lemma BehindOther(code: string, i: nat, end: nat, quote: char)
    requires i < |code| && code[i] != '\\' && code[i] != quote && BehindQuote(code, i + 1, end, quote)
    ensures BehindQuote(code, i, end, quote)
  {
    forall k | i + 1 <= k <= |code|
      ensures Backslashes(code, i, k) == Backslashes(code, i + 1, k)
    {
      RunBehindOther(code, i, k);
    }
    forall k | i + 1 <= k < |code|
      ensures ClosesAt(code, i, k, quote) <==> ClosesAt(code, i + 1, k, quote)
    {
    }
  }

  lemma PunctIsOperator(code: string, i: nat)
    requires i < |code|
    ensures OperatorAt(code, i, PunctEnd(code, i))
  {
  }

  /** The scan that ends a token, by its kind. */
  lemma EndByKind(code: string, i: nat, isPattern: bool, t: Token)
    requires i < |code| && !IsSpace(code[i]) && t == MakeToken(code, i, isPattern)
    ensures t.kind == Comment ==>
              t.end == if code[i] == '/' && At(code, i + 1, '*') then CommentEnd(code, i + 2) else RunEnd(code, i, NotNewline)
    ensures t.kind == Str ==> IsQuote(code[i]) && t.end == StringEnd(code, i + 1, code[i])
    ensures t.kind == Number ==> t.end == RunEnd(code, i, IsNumeric)
    ensures t.kind == Ident ==> t.end == RunEnd(code, i, IsIdent)
    ensures t.kind == Punct ==> t.end == PunctEnd(code, i)
    ensures t.kind == MultiMetavar ==> code[i] == '$' && At(code, i + 1, '$') && t.end == MetavarEnd(code, i)
    ensures t.kind == Metavar ==> code[i] == '$' && !At(code, i + 1, '$') && t.end == MetavarEnd(code, i)
  {
  }

  lemma EndOfToken(code: string, i: nat, isPattern: bool, t: Token)
    requires i < |code| && !IsSpace(code[i]) && t == MakeToken(code, i, isPattern)
    ensures EndFits(code, t)
  {
    EndByKind(code, i, isPattern, t);
    if t.kind == Comment {
      EndOfComment(code, i, t.end);
    } else if t.kind == Str {
      StringClosesFirst(code, i + 1, code[i]);
    } else if t.kind == Punct {
      EndOfPunct(code, t);
    } else if t.kind == Number || t.kind == Ident {
      EndOfWord(code, t);
    } else {
      EndOfMetavar(code, t);
    }
  }

  lemma EndOfPunct(code: string, t: Token)
    requires t.start < |code| && t.kind == Punct && t.end == PunctEnd(code, t.start)
    ensures EndFits(code, t)
  {
    PunctIsOperator(code, t.start);
  }

  lemma EndOfWord(code: string, t: Token)
    requires t.start < |code| && (t.kind == Number || t.kind == Ident)
    requires t.end == RunEnd(code, t.start, if t.kind == Number then IsNumeric else IsIdent)
    ensures EndFits(code, t)
  {
    if t.kind == Number {
      RunIsLongest(code, t.start, IsNumeric, OfNumber);
    } else {
      RunIsLongest(code, t.start, IsIdent, OfName);
    }
  }

  lemma EndOfComment(code: string, i: nat, end: nat)
    requires i < |code|
    requires end == if code[i] == '/' && At(code, i + 1, '*') then CommentEnd(code, i + 2) else RunEnd(code, i, NotNewline)
    ensures if StartsWith(code, i, "/*") then BehindFirst(code, i + 2, end, "*/") else LongestRun(code, i, end, OnLine)
  {
    TwoMarks(code, i);
    if StartsWith(code, i, "/*") {
      CommentClosesFirst(code, i + 2);
    } else {
      RunIsLongest(code, i, NotNewline, OnLine);
    }
  }

  lemma EndOfMetavar(code: string, t: Token)
    requires t.start < |code| && code[t.start] == '$' && t.end == MetavarEnd(code, t.start)
    requires t.kind == if At(code, t.start + 1, '$') then MultiMetavar else Metavar
    ensures EndFits(code, t)
  {
    var i := t.start;
    TwoMarks(code, i);
    var dollars := if At(code, i + 1, '$') then if At(code, i + 2, '$') then 3 else 2 else 1;
    RunIsLongest(code, i + dollars, IsWord, OfWord);
  }

  // ---------------------------------------------------------------------------------------------
  // Places

  /** The line feeds before `i`. */
  ghost function LineFeeds(code: string, i: nat): set<nat> { set k: nat | k < i && k < |code| && code[k] == '\n' }

  /** Lines are counted from 1, columns from 1 behind the last line feed. */
  ghost predicate PlaceFits(code: string, t: Token) {
    && t.line == 1 + |LineFeeds(code, t.start)|
    && 1 <= t.col <= t.start + 1
    && (forall k | t.start + 1 - t.col <= k < t.start && k < |code| :: code[k] != '\n')
    && (t.col <= t.start ==> At(code, t.start - t.col, '\n'))
  }

  lemma {:induction false} LinesCounted(code: string, i: nat)
    requires i <= |code|
    ensures LineAt(code, i) == 1 + |LineFeeds(code, i)|
  {
    if i == 0 {
      assert LineFeeds(code, i) == {};
    } else {
      LinesCounted(code, i - 1);
      if code[i - 1] == '\n' {
        assert LineFeeds(code, i) == LineFeeds(code, i - 1) + {i - 1};
      } else {
        assert LineFeeds(code, i) == LineFeeds(code, i - 1);
      }
    }
  }

  lemma {:induction false} ColumnsCounted(code: string, i: nat)
    requires i <= |code|
    ensures 1 <= ColAt(code, i) <= i + 1
    ensures forall k | i + 1 - ColAt(code, i) <= k < i :: code[k] != '\n'
    ensures ColAt(code, i) <= i ==> At(code, i - ColAt(code, i), '\n')
  {
    if i > 0 && code[i - 1] != '\n' {
      ColumnsCounted(code, i - 1);
    }
  }

  /** A token says what the text says at its place. */
  ghost predicate Means(code: string, t: Token, isPattern: bool) {
    && t.start < |code| && t.start < t.end && KindFits(code, t, isPattern) && EndFits(code, t) && PlaceFits(code, t)
    && t.value == (if t.end <= |code| then code[t.start..t.end] else code[t.start..]) && t.children == []
  }

  /** Every token of a text is what the text says it is. */
  lemma {:induction false} TokensMean(code: string, i: nat, isPattern: bool)
    ensures forall k | 0 <= k < |Lex(code, i, isPattern)| :: Means(code, Lex(code, i, isPattern)[k], isPattern)
    decreases |code| + 1 - i
  {
    if i < |code| && IsSpace(code[i]) {
      TokensMean(code, i + 1, isPattern);
    } else if i < |code| {
      TokenMeans(code, i, isPattern);
      TokensMean(code, NextToken(code, i, isPattern).1, isPattern);
    }
  }

  lemma TokenMeans(code: string, i: nat, isPattern: bool)
    requires i < |code| && !IsSpace(code[i])
    ensures Means(code, MakeToken(code, i, isPattern), isPattern)
  {
    KindOfToken(code, i, isPattern);
    EndOfToken(code, i, isPattern, MakeToken(code, i, isPattern));
    LinesCounted(code, i);
    ColumnsCounted(code, i);
  }

  /** White space, by code points: what stands between tokens, and what trimming takes away. */
  lemma WhiteSpace(c: char)
    ensures IsSpace(c) <==>
            9 <= c as int <= 13 || 0x2000 <= c as int <= 0x200A ||
            c as int in {0x20, 0xA0, 0x1680, 0x2028, 0x2029, 0x202F, 0x205F, 0x3000, 0xFEFF}
  {
  }
}
