/** What a frame of the base protocol is, read off the bytes. */
module FrameMeaning {
  import opened Options
  import opened Octets
  import opened LspFraming

  /** The bytes of a text of ASCII characters. */
  ghost predicate IsAscii(b: Bytes, text: string) {
    |b| == |text| && forall k | 0 <= k < |b| :: b[k] as int == text[k] as int
  }

  ghost predicate MarkAt(b: Bytes, k: nat) { k + 4 <= |b| && IsAscii(b[k..k + 4], "\r\n\r\n") }

  lemma MarkIsEnd(b: Bytes, k: nat)
    ensures MarkAt(b, k) <==> EndsHeader(b, k)
  {
    if k + 4 <= |b| {
      var m := b[k..k + 4];
      assert m[0] == b[k] && m[1] == b[k + 1] && m[2] == b[k + 2] && m[3] == b[k + 3];
    }
  }

  /** A byte as a seven-bit character. */
  ghost function Seven(b: Byte): int { b as int % 128 }

  ghost predicate IsBlank(b: Byte) { Seven(b) in {9, 10, 11, 12, 13, 32} }

  ghost predicate IsFigure(b: Byte) { '0' as int <= Seven(b) <= '9' as int }

  /** The same letter, large or small. */
  ghost predicate SameLetter(b: Byte, c: char) {
    Seven(b) == c as int || ('a' <= c <= 'z' && Seven(b) == c as int - 32)
  }

  ghost predicate NameAt(h: Bytes, i: nat) {
    i + 15 <= |h| && forall k | 0 <= k < 15 :: SameLetter(h[i + k], "content-length:"[k])
  }

  /** The number written in decimal figures from `i` to `j`. */
  ghost function Decimal(h: Bytes, i: nat, j: nat): int
    requires i <= j <= |h|
    decreases j - i
  {
    if i == j then 0 else 10 * Decimal(h, i, j - 1) + Seven(h[j - 1]) - '0' as int
  }

  /** A length is given at `i`: the name of the field, blanks, and from `s` to `e` all the figures there are. */
  ghost predicate LengthAt(h: Bytes, i: nat, s: nat, e: nat) {
    && NameAt(h, i) && i + 15 <= s < e <= |h|
    && (forall k | i + 15 <= k < s :: IsBlank(h[k]))
    && (forall k | s <= k < e :: IsFigure(h[k])) && (e < |h| ==> !IsFigure(h[e]))
  }

  lemma NameIsField(h: Bytes, i: nat)
    ensures NameAt(h, i) <==> FieldAt(h, i)
  {
    var name := "content-length:";
    assert |FIELD| == 15 && forall k | 0 <= k < 15 :: FIELD[k] as int == name[k] as int;
    if i + 15 <= |h| {
      forall k | 0 <= k < 15
        ensures SameLetter(h[i + k], name[k]) <==> Lower(LspFraming.Ascii(h[i + k])) == FIELD[k]
      {
        LetterIs(h[i + k], name[k], FIELD[k]);
      }
    }
  }

  lemma LetterIs(b: Byte, c: char, f: Byte)
    requires f as int == c as int && (c == '-' || c == ':' || 'a' <= c <= 'z')
    ensures SameLetter(b, c) <==> Lower(LspFraming.Ascii(b)) == f
  {
  }

  lemma {:induction false} BlanksSkipped(h: Bytes, i: nat)
    requires i <= |h|
    ensures forall k | i <= k < SkipSpace(h, i) :: IsBlank(h[k])
    ensures SkipSpace(h, i) < |h| ==> !IsBlank(h[SkipSpace(h, i)])
    decreases |h| - i
  {
    if i < |h| && IsSpace(h[i]) {
      BlanksSkipped(h, i + 1);
    }
  }

  lemma {:induction false} DecimalIsNatural(h: Bytes, s: nat, e: nat)
    requires s <= e <= |h| && forall k | s <= k < e :: IsFigure(h[k])
    ensures Decimal(h, s, e) >= 0
    decreases e - s
  {
    if s < e {
      DecimalIsNatural(h, s, e - 1);
    }
  }

  lemma OneFigure(h: Bytes, s: nat, i: nat)
    requires s <= i < |h| && IsFigure(h[i]) && Decimal(h, s, i) >= 0
    ensures NumberAt(h, i, Decimal(h, s, i)) == NumberAt(h, i + 1, Decimal(h, s, i + 1))
  {
  }

  /** Figures are read to their end. */
  lemma {:induction false} FiguresRead(h: Bytes, s: nat, i: nat, e: nat)
    requires s <= i <= e <= |h| && (e < |h| ==> !IsFigure(h[e]))
    requires forall k | s <= k < e :: IsFigure(h[k])
    ensures Decimal(h, s, i) >= 0 && NumberAt(h, i, Decimal(h, s, i)) == Decimal(h, s, e)
    decreases e - i
  {
    DecimalIsNatural(h, s, i);
    if i < e {
      FiguresRead(h, s, i + 1, e);
      OneFigure(h, s, i);
    }
  }

  lemma {:induction false} FiguresEnd(h: Bytes, i: nat) returns (e: nat)
    requires i <= |h|
    ensures i <= e <= |h| && (forall k | i <= k < e :: IsFigure(h[k])) && (e < |h| ==> !IsFigure(h[e]))
    decreases |h| - i
  {
    e := i;
    if i < |h| && IsFigure(h[i]) {
      e := FiguresEnd(h, i + 1);
    }
  }

  lemma BlanksEndAt(h: Bytes, i: nat, s: nat)
    requires i <= s < |h| && IsFigure(h[s]) && forall k | i <= k < s :: IsBlank(h[k])
    ensures SkipSpace(h, i) == s
  {
    BlanksSkipped(h, i);
  }

  ghost predicate GivesLength(h: Bytes, i: nat) { exists s: nat, e: nat :: LengthAt(h, i, s, e) }

  /** The length a header gives is the first in it. */
  ghost predicate LengthIs(h: Bytes, length: Option<nat>) {
    if length.None? then forall k :: !GivesLength(h, k)
    else exists i: nat, s: nat, e: nat ::
      LengthAt(h, i, s, e) && Decimal(h, s, e) == length.value && forall k | 0 <= k < i :: !GivesLength(h, k)
  }

  lemma NoLengthHere(h: Bytes, i: nat)
    requires i < |h| && !GivesLength(h, i)
    ensures ContentLength(h, i) == ContentLength(h, i + 1)
  {
    NameIsField(h, i);
    if FieldAt(h, i) {
      var s := SkipSpace(h, i + |FIELD|);
      BlanksSkipped(h, i + |FIELD|);
      if s < |h| && IsFigure(h[s]) {
        var e := FiguresEnd(h, s);
        assert LengthAt(h, i, s, e);
      }
    }
  }

  lemma LengthHere(h: Bytes, i: nat, s: nat, e: nat)
    requires LengthAt(h, i, s, e)
    ensures 0 <= Decimal(h, s, e) && ContentLength(h, i) == Some(Decimal(h, s, e))
  {
    NameIsField(h, i);
    assert |FIELD| == 15;
    BlanksEndAt(h, i + 15, s);
    FiguresRead(h, s, s, e);
    assert Decimal(h, s, s) == 0;
  }

  lemma {:induction false} LengthFrom(h: Bytes, i: nat)
    requires forall k | 0 <= k < i :: !GivesLength(h, k)
    ensures LengthIs(h, ContentLength(h, i))
    decreases |h| - i
  {
    if i >= |h| {
      assert forall k | i <= k :: !GivesLength(h, k);
    } else if GivesLength(h, i) {
      var s: nat, e: nat :| LengthAt(h, i, s, e);
      LengthHere(h, i, s, e);
    } else {
      NoLengthHere(h, i);
      LengthFrom(h, i + 1);
    }
  }

  /** Without a blank line, a round waits. */
  lemma WaitsForHeader(buf: Bytes)
    requires forall k :: !MarkAt(buf, k)
    ensures Next(buf).Wait?
  {
    forall k
      ensures !EndsHeader(buf, k)
    {
      MarkIsEnd(buf, k);
    }
  }

  lemma FirstMark(buf: Bytes, e: nat)
    requires MarkAt(buf, e) && forall k | 0 <= k < e :: !MarkAt(buf, k)
    ensures HeaderEnd(buf, 0) == Some(e)
  {
    MarkIsEnd(buf, e);
    var r := HeaderEnd(buf, 0);
    assert r.Some? && r.value <= e;
    MarkIsEnd(buf, r.value);
  }

  /** At the first blank line, a round drops a header that gives no length, and otherwise waits for the body or
      cuts it off. */
  lemma NextSays(buf: Bytes, e: nat) returns (length: Option<nat>)
    requires MarkAt(buf, e) && forall k | 0 <= k < e :: !MarkAt(buf, k)
    ensures LengthIs(buf[..e], length)
    ensures length.None? ==> Next(buf) == Drop(buf[e + 4..])
    ensures length.Some? && |buf| < e + 4 + length.value ==> Next(buf).Wait?
    ensures length.Some? && |buf| >= e + 4 + length.value ==>
              Next(buf) == Frame(buf[e + 4..e + 4 + length.value], buf[e + 4 + length.value..])
  {
    FirstMark(buf, e);
    length := ContentLength(buf[..e], 0);
    LengthFrom(buf[..e], 0);
  }

  lemma {:induction false} DigitsSay(n: nat)
    ensures PlainNumber(Digits(n), n) && (n > 0 ==> Digits(n)[0] as int != '0' as int)
  {
    if n < 10 {
      assert Decimal(Digits(n), 0, 0) == 0;
    } else {
      DigitsSay(n / 10);
      DecimalOfFront(Digits(n / 10), [(48 + n % 10) as Byte], 0, |Digits(n / 10)|);
    }
  }

  lemma {:induction false} DecimalOfFront(h: Bytes, more: Bytes, i: nat, j: nat)
    requires i <= j <= |h|
    ensures Decimal(h + more, i, j) == Decimal(h, i, j)
    decreases j - i
  {
    if i < j {
      DecimalOfFront(h, more, i, j - 1);
    }
  }

  /** `n` in decimal figures, without leading zeros. */
  ghost predicate PlainNumber(d: Bytes, n: int) {
    && Decimal(d, 0, |d|) == n && (forall k | 0 <= k < |d| :: '0' as int <= d[k] as int <= '9' as int)
    && |d| > 0 && (d[0] as int == '0' as int ==> |d| == 1)
  }

  /** A message on the wire: the name of the field, the number of its bytes in decimal figures without leading
      zeros, a blank line, and the body as it is. */
  lemma EncodedSays(body: Bytes)
    ensures var w := Encode(body);
      exists e :: 16 < e && e + 4 + |body| == |w| && MarkAt(w, e) && w[e + 4..] == body
               && IsAscii(w[..16], "Content-Length: ") && PlainNumber(w[16..e], |body|)
  {
    var w, d := Encode(body), Digits(|body|);
    var e := 16 + |d|;
    DigitsSay(|body|);
    LabelReads();
    assert w[..16] == LABEL && w[16..e] == d && w[e..e + 4] == [CR, LF, CR, LF] && w[e + 4..] == body;
    assert MarkAt(w, e);
  }

  lemma LabelReads()
    ensures IsAscii(LABEL, "Content-Length: ")
  {
    var text := "Content-Length: ";
    assert |LABEL| == |text| && forall k | 0 <= k < |text| :: LABEL[k] as int == text[k] as int;
  }
}
