/** Delimited text: the parser with look-ahead, the automaton it amounts to, and the round trip
    (section 2 of RFC 4180). */
module Csv {

  datatype Mode = Bare | Quoted | Closing | AfterReturn

  /** Rows read, fields of the current row, the current field. */
  datatype State = State(rows: seq<seq<string>>, row: seq<string>, field: string, mode: Mode)

  const START := State([], [], "", Bare)

  /** A row that is not just one empty field. */
  predicate Solid(row: seq<string>) { |row| > 1 || (|row| == 1 && row[0] != "") }

  function WithRow(rows: seq<seq<string>>, row: seq<string>): seq<seq<string>> {
    if Solid(row) then rows + [row] else rows
  }

  /** A character outside quotes. */
  function FeedBare(s: State, c: char, delimiter: char): State {
    if c == '"' then s.(mode := Quoted)
    else if c == delimiter then State(s.rows, s.row + [s.field], "", Bare)
    else if c == '\n' || c == '\r' then
      State(WithRow(s.rows, s.row + [s.field]), [], "", if c == '\r' then AfterReturn else Bare)
    else State(s.rows, s.row, s.field + [c], Bare)
  }

  /** One character, without look-ahead: a quote within quotes is a closing one until a second follows,
      and a line feed is nothing after a carriage return. */
  function Feed(s: State, c: char, delimiter: char): State {
    match s.mode
    case Quoted => if c == '"' then s.(mode := Closing) else s.(field := s.field + [c])
    case Closing => if c == '"' then State(s.rows, s.row, s.field + ['"'], Quoted) else FeedBare(s, c, delimiter)
    case AfterReturn => if c == '\n' then s.(mode := Bare) else FeedBare(s, c, delimiter)
    case Bare => FeedBare(s, c, delimiter)
  }

  function FeedAll(s: State, text: string, delimiter: char): State
    decreases |text|
  {
    if text == "" then s else FeedAll(Feed(s, text[0], delimiter), text[1..], delimiter)
  }

  function Finish(s: State): seq<seq<string>> {
    if s.field != "" || s.row != [] then s.rows + [s.row + [s.field]] else s.rows
  }

  function Parsed(text: string, delimiter: char): seq<seq<string>> {
    Finish(FeedAll(START, text, delimiter))
  }

  // ---------------------------------------------------------------------------------------------
  // The parser

  lemma Take(s: State, text: string, i: nat, delimiter: char)
    requires i < |text|
    ensures FeedAll(s, text[i..], delimiter) == FeedAll(Feed(s, text[i], delimiter), text[i + 1..], delimiter)
  {
    assert text[i..][1..] == text[i + 1..];
  }

  /** The look-ahead only ever skips what the automaton would have taken into account. */
  lemma NoSecondQuote(s: State, text: string, i: nat, delimiter: char)
    requires i <= |text| && s.mode == Closing && (i < |text| ==> text[i] != '"')
    ensures Finish(FeedAll(s, text[i..], delimiter)) == Finish(FeedAll(s.(mode := Bare), text[i..], delimiter))
  {
    if i < |text| {
      Take(s, text, i, delimiter);
      Take(s.(mode := Bare), text, i, delimiter);
    } else {
      assert text[i..] == "";
    }
  }

  lemma NoLineFeed(s: State, text: string, i: nat, delimiter: char)
    requires i <= |text| && s.mode == AfterReturn && (i < |text| ==> text[i] != '\n')
    ensures Finish(FeedAll(s, text[i..], delimiter)) == Finish(FeedAll(s.(mode := Bare), text[i..], delimiter))
  {
    if i < |text| {
      Take(s, text, i, delimiter);
      Take(s.(mode := Bare), text, i, delimiter);
    } else {
      assert text[i..] == "";
    }
  }

  method ParseDelimited(text: string, delimiter: char) returns (rows: seq<seq<string>>)
    ensures rows == Parsed(text, delimiter)
  {
    rows := [];
    var row: seq<string> := [];
    var field := "";
    var inQuotes := false;
    var i := 0;
    assert text[0..] == text;
    while i < |text|
      invariant 0 <= i <= |text|
      invariant Finish(FeedAll(State(rows, row, field, if inQuotes then Quoted else Bare), text[i..], delimiter))
             == Parsed(text, delimiter)
    {
      var c := text[i];
      ghost var s := State(rows, row, field, if inQuotes then Quoted else Bare);
      Take(s, text, i, delimiter);
      if inQuotes {
        if c == '"' {
          if i + 1 < |text| && text[i + 1] == '"' {
            Take(Feed(s, c, delimiter), text, i + 1, delimiter);
            field := field + ['"'];
            i := i + 1;
          } else {
            NoSecondQuote(Feed(s, c, delimiter), text, i + 1, delimiter);
            inQuotes := false;
          }
        } else {
          field := field + [c];
        }
        i := i + 1;
        continue;
      }
      if c == '"' {
        inQuotes := true;
      } else if c == delimiter {
        row, field := row + [field], "";
      } else if c == '\n' || c == '\r' {
        if c == '\r' && i + 1 < |text| && text[i + 1] == '\n' {
          Take(Feed(s, c, delimiter), text, i + 1, delimiter);
          i := i + 1;
        } else if c == '\r' {
          NoLineFeed(Feed(s, c, delimiter), text, i + 1, delimiter);
        }
        row, field := row + [field], "";
        if |row| > 1 || row[0] != "" {
          rows := rows + [row];
        }
        row := [];
      } else {
        field := field + [c];
      }
      i := i + 1;
    }
    assert text[i..] == "";
    if field != "" || |row| > 0 {
      row := row + [field];
      rows := rows + [row];
    }
  }

  // ---------------------------------------------------------------------------------------------
  // Writing

  /** A field's text, and whether it is written in quotes. */
  datatype Field = Field(text: string, quoted: bool)

  predicate Special(c: char, delimiter: char) { c == '"' || c == delimiter || c == '\n' || c == '\r' }

  /** A field may stand bare when nothing in it is special. */
  ghost predicate Legal(f: Field, delimiter: char) {
    f.quoted || forall k | 0 <= k < |f.text| :: !Special(f.text[k], delimiter)
  }

  ghost predicate LegalRow(row: seq<Field>, delimiter: char) {
    row != [] && forall k | 0 <= k < |row| :: Legal(row[k], delimiter)
  }

  function Doubled(text: string): string {
    if text == "" then "" else (if text[0] == '"' then "\"\"" else [text[0]]) + Doubled(text[1..])
  }

  function Spelled(f: Field): string {
    if f.quoted then ['"'] + Doubled(f.text) + ['"'] else f.text
  }

  function SpelledRow(row: seq<Field>, delimiter: char): string {
    if row == [] then ""
    else if |row| == 1 then Spelled(row[0])
    else Spelled(row[0]) + [delimiter] + SpelledRow(row[1..], delimiter)
  }

  datatype RowEnd = Lf | CrLf | Cr

  function EndText(e: RowEnd): string {
    match e
    case Lf => "\n"
    case CrLf => "\r\n"
    case Cr => "\r"
  }

  function SpelledRows(rows: seq<seq<Field>>, ends: seq<RowEnd>, delimiter: char): string
    requires |ends| == |rows|
  {
    if rows == [] then ""
    else SpelledRow(rows[0], delimiter) + EndText(ends[0]) + SpelledRows(rows[1..], ends[1..], delimiter)
  }

  function Texts(row: seq<Field>): (r: seq<string>)
    ensures |r| == |row|
  {
    seq(|row|, k requires 0 <= k < |row| => row[k].text)
  }

  /** The texts of the rows that are not just one empty field. */
  function SolidRows(rows: seq<seq<Field>>): seq<seq<string>> {
    if rows == [] then []
    else if !Solid(Texts(rows[0])) then SolidRows(rows[1..])
    else [Texts(rows[0])] + SolidRows(rows[1..])
  }

  // ---------------------------------------------------------------------------------------------
  // Round trip

  lemma {:induction false} FeedAppend(s: State, a: string, b: string, delimiter: char)
    ensures FeedAll(s, a + b, delimiter) == FeedAll(FeedAll(s, a, delimiter), b, delimiter)
    decreases |a|
  {
    if a == "" {
      assert a + b == b;
    } else {
      FeedAppend(Feed(s, a[0], delimiter), a[1..], b, delimiter);
      assert (a + b)[1..] == a[1..] + b;
    }
  }

  lemma FeedOne(s: State, c: char, delimiter: char)
    ensures FeedAll(s, [c], delimiter) == Feed(s, c, delimiter)
  {
    assert FeedAll(Feed(s, c, delimiter), [], delimiter) == Feed(s, c, delimiter);
  }

  /** Before a field: nothing of it is read. */
  ghost predicate Ready(s: State) { s.field == "" && (s.mode == Bare || s.mode == AfterReturn) }

  lemma {:induction false} FeedBareText(s: State, text: string, delimiter: char)
    requires s.mode == Bare || s.mode == AfterReturn
    requires forall k | 0 <= k < |text| :: !Special(text[k], delimiter)
    ensures FeedAll(s, text, delimiter) == State(s.rows, s.row, s.field + text, if text == "" then s.mode else Bare)
    decreases |text|
  {
    if text == "" {
      assert s.field + text == s.field;
    } else {
      FeedBareText(Feed(s, text[0], delimiter), text[1..], delimiter);
      assert s.field + [text[0]] + text[1..] == s.field + text;
    }
  }

  lemma {:induction false} FeedDoubled(s: State, text: string, delimiter: char)
    requires s.mode == Quoted
    ensures FeedAll(s, Doubled(text), delimiter) == s.(field := s.field + text)
    decreases |text|
  {
    if text == "" {
      assert s.field + text == s.field;
    } else {
      var first := if text[0] == '"' then "\"\"" else [text[0]];
      FeedAppend(s, first, Doubled(text[1..]), delimiter);
      FirstOfDoubled(s, text[0], delimiter);
      FeedDoubled(s.(field := s.field + [text[0]]), text[1..], delimiter);
      assert s.field + [text[0]] + text[1..] == s.field + text;
    }
  }

  lemma FirstOfDoubled(s: State, c: char, delimiter: char)
    requires s.mode == Quoted
    ensures FeedAll(s, if c == '"' then "\"\"" else [c], delimiter) == s.(field := s.field + [c])
  {
    FeedOne(s, c, delimiter);
    if c == '"' {
      FeedAppend(s, [c], [c], delimiter);
      FeedOne(s.(mode := Closing), c, delimiter);
    }
  }

  lemma FeedField(s: State, f: Field, delimiter: char)
    requires Ready(s) && Legal(f, delimiter)
    ensures FeedAll(s, Spelled(f), delimiter)
         == State(s.rows, s.row, f.text, if f.quoted then Closing else if f.text == "" then s.mode else Bare)
  {
    assert s.field + f.text == f.text;
    if f.quoted {
      FeedAppend(s, ['"'] + Doubled(f.text), ['"'], delimiter);
      FeedAppend(s, ['"'], Doubled(f.text), delimiter);
      FeedOne(s, '"', delimiter);
      FeedDoubled(s.(mode := Quoted), f.text, delimiter);
      FeedOne(State(s.rows, s.row, f.text, Quoted), '"', delimiter);
    } else {
      FeedBareText(s, f.text, delimiter);
    }
  }

  ghost predicate Separates(delimiter: char) { delimiter != '"' && delimiter != '\n' && delimiter != '\r' }

  /** Reading a row leaves its last field unfinished; only an empty row leaves no trace. */
  lemma {:induction false} FeedRow(s: State, row: seq<Field>, delimiter: char)
    requires Separates(delimiter) && Ready(s) && LegalRow(row, delimiter)
    ensures FeedAll(s, SpelledRow(row, delimiter), delimiter).rows == s.rows
    ensures FeedAll(s, SpelledRow(row, delimiter), delimiter).row + [FeedAll(s, SpelledRow(row, delimiter), delimiter).field]
         == s.row + Texts(row)
    ensures FeedAll(s, SpelledRow(row, delimiter), delimiter).mode != Quoted
    ensures FeedAll(s, SpelledRow(row, delimiter), delimiter).mode == AfterReturn ==>
              s.mode == AfterReturn && |row| == 1 && row[0].text == ""
    decreases |row|
  {
    FeedField(s, row[0], delimiter);
    var first := FeedAll(s, Spelled(row[0]), delimiter);
    if |row| == 1 {
      assert Texts(row) == [row[0].text];
    } else {
      var next := State(s.rows, s.row + [row[0].text], "", Bare);
      FeedAppend(s, Spelled(row[0]) + [delimiter], SpelledRow(row[1..], delimiter), delimiter);
      FeedAppend(s, Spelled(row[0]), [delimiter], delimiter);
      FeedOne(first, delimiter, delimiter);
      FeedRow(next, row[1..], delimiter);
      assert s.row + [row[0].text] + Texts(row[1..]) == s.row + Texts(row);
    }
  }

  lemma FeedEnd(s: State, e: RowEnd, delimiter: char)
    requires Separates(delimiter) && s.mode != Quoted && (s.mode == AfterReturn ==> s.row == [] && s.field == "")
    ensures Ready(FeedAll(s, EndText(e), delimiter)) && FeedAll(s, EndText(e), delimiter).row == []
    ensures FeedAll(s, EndText(e), delimiter).rows == WithRow(s.rows, s.row + [s.field])
  {
    match e
    case Lf => FeedOne(s, '\n', delimiter);
    case Cr => FeedOne(s, '\r', delimiter);
    case CrLf =>
      assert "\r\n" == ['\r'] + ['\n'];
      FeedAppend(s, ['\r'], ['\n'], delimiter);
      FeedOne(s, '\r', delimiter);
      FeedOne(Feed(s, '\r', delimiter), '\n', delimiter);
  }

  lemma FeedRowAndEnd(s: State, row: seq<Field>, e: RowEnd, delimiter: char)
    requires Separates(delimiter) && Ready(s) && s.row == [] && LegalRow(row, delimiter)
    ensures Ready(FeedAll(s, SpelledRow(row, delimiter) + EndText(e), delimiter))
    ensures FeedAll(s, SpelledRow(row, delimiter) + EndText(e), delimiter).row == []
    ensures FeedAll(s, SpelledRow(row, delimiter) + EndText(e), delimiter).rows == WithRow(s.rows, Texts(row))
  {
    FeedRow(s, row, delimiter);
    var r := FeedAll(s, SpelledRow(row, delimiter), delimiter);
    LastField(r.row, r.field, Texts(row));
    FeedAppend(s, SpelledRow(row, delimiter), EndText(e), delimiter);
    FeedEnd(r, e, delimiter);
  }

  lemma LastField(row: seq<string>, field: string, texts: seq<string>)
    requires row + [field] == [] + texts
    ensures row + [field] == texts && (|texts| == 1 ==> row == [] && field == texts[0])
  {
    assert [] + texts == texts;
    if |texts| == 1 {
      assert (row + [field])[|row|] == field;
    }
  }

  lemma {:induction false} FeedRows(s: State, rows: seq<seq<Field>>, ends: seq<RowEnd>, delimiter: char)
    requires Separates(delimiter) && Ready(s) && s.row == [] && |ends| == |rows|
    requires forall k | 0 <= k < |rows| :: LegalRow(rows[k], delimiter)
    ensures Ready(FeedAll(s, SpelledRows(rows, ends, delimiter), delimiter))
    ensures FeedAll(s, SpelledRows(rows, ends, delimiter), delimiter).row == []
    ensures FeedAll(s, SpelledRows(rows, ends, delimiter), delimiter).rows == s.rows + SolidRows(rows)
    decreases |rows|
  {
    if rows == [] {
      assert s.rows + [] == s.rows;
    } else {
      var first := SpelledRow(rows[0], delimiter) + EndText(ends[0]);
      FeedAppend(s, first, SpelledRows(rows[1..], ends[1..], delimiter), delimiter);
      FeedRowAndEnd(s, rows[0], ends[0], delimiter);
      FeedRows(FeedAll(s, first, delimiter), rows[1..], ends[1..], delimiter);
      SolidMore(s.rows, rows);
    }
  }

  lemma SolidMore(front: seq<seq<string>>, rows: seq<seq<Field>>)
    requires rows != []
    ensures WithRow(front, Texts(rows[0])) + SolidRows(rows[1..]) == front + SolidRows(rows)
  {
    if Solid(Texts(rows[0])) {
      assert front + [Texts(rows[0])] + SolidRows(rows[1..]) == front + ([Texts(rows[0])] + SolidRows(rows[1..]));
    }
  }

  /** Any mix of quoted fields and legal bare ones, any mix of row ends, the last row ended or not:
      parsing gives back the rows, in order, except those that are one empty field. */
  lemma CsvRoundTrip(rows: seq<seq<Field>>, ends: seq<RowEnd>, last: seq<Field>, delimiter: char)
    requires Separates(delimiter) && |ends| == |rows|
    requires forall k | 0 <= k < |rows| :: LegalRow(rows[k], delimiter)
    requires last == [] || LegalRow(last, delimiter)
    ensures Parsed(SpelledRows(rows, ends, delimiter) + SpelledRow(last, delimiter), delimiter)
         == WithRow(SolidRows(rows), Texts(last))
  {
    var body := SpelledRows(rows, ends, delimiter);
    FeedAppend(START, body, SpelledRow(last, delimiter), delimiter);
    FeedRows(START, rows, ends, delimiter);
    assert START.rows + SolidRows(rows) == SolidRows(rows);
    var s := FeedAll(START, body, delimiter);
    if last != [] {
      FeedRow(s, last, delimiter);
      var r := FeedAll(s, SpelledRow(last, delimiter), delimiter);
      LastField(r.row, r.field, Texts(last));
    }
  }

  lemma {:induction false} SolidRowsAreFewer(rows: seq<seq<Field>>)
    ensures |SolidRows(rows)| <= |rows|
    ensures |SolidRows(rows)| == |rows| <==> forall k | 0 <= k < |rows| :: Solid(Texts(rows[k]))
  {
    if rows != [] {
      SolidRowsAreFewer(rows[1..]);
      assert forall k | 1 <= k < |rows| :: rows[k] == rows[1..][k - 1];
      assert (forall k | 0 <= k < |rows| :: Solid(Texts(rows[k])))
        <==> Solid(Texts(rows[0])) && (forall k | 0 <= k < |rows| - 1 :: Solid(Texts(rows[1..][k])));
    }
  }

  /** No row is lost if and only if none is a single empty field. */
  lemma RowsAreKept(rows: seq<seq<Field>>, ends: seq<RowEnd>, delimiter: char)
    requires Separates(delimiter) && |ends| == |rows|
    requires forall k | 0 <= k < |rows| :: LegalRow(rows[k], delimiter)
    ensures |Parsed(SpelledRows(rows, ends, delimiter), delimiter)| == |rows|
       <==> forall k | 0 <= k < |rows| :: Solid(Texts(rows[k]))
  {
    CsvRoundTrip(rows, ends, [], delimiter);
    assert SpelledRows(rows, ends, delimiter) + "" == SpelledRows(rows, ends, delimiter);
    SolidRowsAreFewer(rows);
  }
}
