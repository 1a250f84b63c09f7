/** What each character of a delimited text does, read off the quotes before it. */
module CsvMeaning {
  import opened Csv

  ghost function QuotesBefore(text: string, i: nat): nat
    requires i <= |text|
  {
    if i == 0 then 0 else QuotesBefore(text, i - 1) + if text[i - 1] == '"' then 1 else 0
  }

  /** An odd number of quotes stands before `i`. */
  ghost predicate Inside(text: string, i: nat)
    requires i <= |text|
  {
    QuotesBefore(text, i) % 2 == 1
  }

  ghost predicate Follows(text: string, i: nat, c: char) { 0 < i <= |text| && text[i - 1] == c }

  ghost function ReadTo(text: string, i: nat, delimiter: char): State
    requires i <= |text|
  {
    FeedAll(START, text[..i], delimiter)
  }

  lemma ReadOn(text: string, i: nat, delimiter: char)
    requires i < |text|
    ensures ReadTo(text, i + 1, delimiter) == Feed(ReadTo(text, i, delimiter), text[i], delimiter)
  {
    FeedAppend(START, text[..i], [text[i]], delimiter);
    FeedOne(ReadTo(text, i, delimiter), text[i], delimiter);
    assert text[..i + 1] == text[..i] + [text[i]];
  }

  /** The parser is between quotes if and only if their number is odd. */
  lemma {:induction false} ModeIsParity(text: string, i: nat, delimiter: char)
    requires i <= |text|
    ensures ReadTo(text, i, delimiter).mode
         == (if Inside(text, i) then Quoted
             else if Follows(text, i, '"') then Closing
             else if Follows(text, i, '\r') && delimiter != '\r' then AfterReturn
             else Bare)
  {
    if i > 0 {
      ModeIsParity(text, i - 1, delimiter);
      ReadOn(text, i - 1, delimiter);
    }
  }

  /** The field goes on by `more`. */
  ghost predicate Goes(s: State, t: State, more: string) {
    t.rows == s.rows && t.row == s.row && t.field == s.field + more
  }

  ghost predicate FieldEnds(s: State, t: State) {
    t.rows == s.rows && t.row == s.row + [s.field] && t.field == ""
  }

  /** The row ends, and is dropped if it is a single empty field. */
  ghost predicate RowEnds(s: State, t: State) {
    t.row == [] && t.field == "" && t.rows == if s.row == [] && s.field == "" then s.rows else s.rows + [s.row + [s.field]]
  }

  /** Between quotes every other character belongs to the field. */
  lemma InsideSays(text: string, i: nat, delimiter: char)
    requires i < |text| && Inside(text, i)
    ensures Goes(ReadTo(text, i, delimiter), ReadTo(text, i + 1, delimiter), if text[i] == '"' then "" else [text[i]])
  {
    ModeIsParity(text, i, delimiter);
    ReadOn(text, i, delimiter);
  }

  /** A quote that opens belongs to the field if it stands right behind one that closes. */
  lemma OpeningSays(text: string, i: nat, delimiter: char)
    requires i < |text| && !Inside(text, i) && text[i] == '"'
    ensures Goes(ReadTo(text, i, delimiter), ReadTo(text, i + 1, delimiter), if Follows(text, i, '"') then "\"" else "")
  {
    ModeIsParity(text, i, delimiter);
    ReadOn(text, i, delimiter);
  }

  /** Outside quotes a delimiter ends the field, a line feed or a carriage return the row, the line feed of a CRLF
      does nothing, and every other character belongs to the field. */
  lemma OutsideSays(text: string, i: nat, delimiter: char)
    requires i < |text| && !Inside(text, i) && text[i] != '"'
    ensures var s, t, c := ReadTo(text, i, delimiter), ReadTo(text, i + 1, delimiter), text[i];
            if c == '\n' && Follows(text, i, '\r') && delimiter != '\r' then Goes(s, t, "")
            else if c == delimiter then FieldEnds(s, t)
            else if c == '\n' || c == '\r' then RowEnds(s, t)
            else Goes(s, t, [c])
  {
    ModeIsParity(text, i, delimiter);
    ReadOn(text, i, delimiter);
  }

  /** The parse is the rows that ended, and the row the text ends in unless nothing of it was read. */
  lemma EndSays(text: string, delimiter: char)
    ensures var s := ReadTo(text, |text|, delimiter);
            Parsed(text, delimiter) == if s.row == [] && s.field == "" then s.rows else s.rows + [s.row + [s.field]]
    ensures ReadTo(text, 0, delimiter).rows == [] && ReadTo(text, 0, delimiter).row == []
    ensures ReadTo(text, 0, delimiter).field == ""
  {
    assert text[..|text|] == text;
  }
}
