/** Text as bytes, and what happens to it when bytes are decoded chunk by chunk. */
module Utf8 {
  import opened Sequences
  import opened Octets

  function EncodeChar(c: char): (b: Bytes)
    ensures 1 <= |b| <= 4 && (|b| == 1 <==> c as int < 0x80) && (|b| == 1 <==> b[0] < 0x80)
  {
    var n := c as int;
    if n < 0x80 then [n as Byte]
    else if n < 0x800 then [(0xC0 + n / 64) as Byte, (0x80 + n % 64) as Byte]
    else if n < 0x1_0000 then [(0xE0 + n / 4096) as Byte, (0x80 + n / 64 % 64) as Byte, (0x80 + n % 64) as Byte]
    else
      [(0xF0 + n / 262144) as Byte, (0x80 + n / 4096 % 64) as Byte, (0x80 + n / 64 % 64) as Byte, (0x80 + n % 64) as Byte]
  }

  function Encode(text: string): Bytes {
    if text == "" then [] else EncodeChar(text[0]) + Encode(text[1..])
  }

  lemma {:induction false} EncodeAppend(a: string, b: string)
    ensures Encode(a + b) == Encode(a) + Encode(b)
  {
    if a == "" {
      assert a + b == b;
    } else {
      EncodeAppend(a[1..], b);
      assert (a + b)[1..] == a[1..] + b;
      Associate(EncodeChar(a[0]), Encode(a[1..]), Encode(b));
    }
  }

  /** The length of a character shows in its first byte. */
  lemma FirstByte(c: char)
    ensures var b := EncodeChar(c);
            |b| == if b[0] < 0x80 then 1 else if b[0] < 0xE0 then 2 else if b[0] < 0xF0 then 3 else 4
  {
  }

  /** The number of the character with these bytes. */
  function Value(b: Bytes): int
    requires 1 <= |b| <= 4
  {
    if |b| == 1 then b[0] as int
    else if |b| == 2 then (b[0] as int - 0xC0) * 64 + Low(b[1])
    else if |b| == 3 then ((b[0] as int - 0xE0) * 64 + Low(b[1])) * 64 + Low(b[2])
    else (((b[0] as int - 0xF0) * 64 + Low(b[1])) * 64 + Low(b[2])) * 64 + Low(b[3])
  }

  function Low(b: Byte): int { b as int - 0x80 }

  lemma Sextets(n: nat)
    ensures n / 64 * 64 + n % 64 == n
    ensures n / 4096 * 64 + n / 64 % 64 == n / 64
    ensures n / 262144 * 64 + n / 4096 % 64 == n / 4096
  {
  }

  lemma ValueOfChar(c: char)
    ensures Value(EncodeChar(c)) == c as int
  {
    Sextets(c as int);
  }

  lemma SameChar(c: char, d: char)
    requires EncodeChar(c) == EncodeChar(d)
    ensures c == d
  {
    ValueOfChar(c);
    ValueOfChar(d);
  }

  /** No two texts have the same bytes. */
  lemma {:induction false} SameText(s: string, t: string)
    requires Encode(s) == Encode(t)
    ensures s == t
  {
    if s != "" && t != "" {
      var a, b := EncodeChar(s[0]), EncodeChar(t[0]);
      assert Encode(s)[0] == a[0] && Encode(t)[0] == b[0];
      FirstByte(s[0]);
      FirstByte(t[0]);
      assert a == Encode(s)[..|a|] && b == Encode(t)[..|b|];
      SameChar(s[0], t[0]);
      assert Encode(s[1..]) == Encode(s)[|a|..] && Encode(t[1..]) == Encode(t)[|b|..];
      SameText(s[1..], t[1..]);
    }
  }

  const REPLACEMENT := '\U{FFFD}'

  /** The bytes are those of a text: no character is cut at either end. */
  ghost predicate WholeCharacters(b: Bytes) { exists s :: Encode(s) == b }

  /** A decoder reads back what was encoded, and marks what is not the encoding of a text. */
  ghost predicate Decodes(decode: Bytes -> string) {
    (forall s :: decode(Encode(s)) == s) && (forall b :: WholeCharacters(b) || REPLACEMENT in decode(b))
  }

  lemma DecoderExists() returns (decode: Bytes -> string)
    ensures Decodes(decode)
  {
    decode := b => if exists s :: Encode(s) == b then var s :| Encode(s) == b; s else [REPLACEMENT];
    forall s
      ensures decode(Encode(s)) == s
    {
      SameText(decode(Encode(s)), s);
    }
  }

  /** Each chunk decoded on its own. */
  function Decoded(decode: Bytes -> string, chunks: seq<Bytes>): (r: seq<string>)
    ensures |r| == |chunks|
  {
    if chunks == [] then [] else [decode(chunks[0])] + Decoded(decode, chunks[1..])
  }

  ghost predicate Aligned(chunks: seq<Bytes>) { forall k | 0 <= k < |chunks| :: WholeCharacters(chunks[k]) }

  lemma {:induction false} WholeChunksDecode(decode: Bytes -> string, chunks: seq<Bytes>)
    requires Decodes(decode) && Aligned(chunks)
    ensures Joined(chunks) == Encode(Joined(Decoded(decode, chunks)))
  {
    if chunks != [] {
      assert forall k | 0 <= k < |chunks| - 1 :: chunks[1..][k] == chunks[k + 1];
      WholeChunksDecode(decode, chunks[1..]);
      assert WholeCharacters(chunks[0]);
      var s :| Encode(s) == chunks[0];
      assert decode(chunks[0]) == s;
      EncodeAppend(s, Joined(Decoded(decode, chunks[1..])));
    }
  }

  lemma {:induction false} CutChunkShows(decode: Bytes -> string, chunks: seq<Bytes>, k: nat)
    requires Decodes(decode) && k < |chunks| && !WholeCharacters(chunks[k])
    ensures REPLACEMENT in Joined(Decoded(decode, chunks))
  {
    if k == 0 {
      assert REPLACEMENT in decode(chunks[0]);
    } else {
      CutChunkShows(decode, chunks[1..], k - 1);
    }
  }

  /** Cuts between characters do no harm. */
  lemma AlignedSurvives(decode: Bytes -> string, text: string, chunks: seq<Bytes>)
    requires Decodes(decode) && Joined(chunks) == Encode(text) && Aligned(chunks)
    ensures Joined(Decoded(decode, chunks)) == text
  {
    WholeChunksDecode(decode, chunks);
    var r := Joined(Decoded(decode, chunks));
    assert decode(Encode(r)) == r && decode(Encode(text)) == text;
  }

  /** A text decoded chunk by chunk comes out right if and only if no cut falls inside a character. */
  lemma TextSurvivesIffAligned(decode: Bytes -> string, text: string, chunks: seq<Bytes>)
    requires Decodes(decode) && REPLACEMENT !in text && Joined(chunks) == Encode(text)
    ensures Joined(Decoded(decode, chunks)) == text <==> Aligned(chunks)
  {
    if Aligned(chunks) {
      AlignedSurvives(decode, text, chunks);
    } else {
      var k :| 0 <= k < |chunks| && !WholeCharacters(chunks[k]);
      CutChunkShows(decode, chunks, k);
    }
  }

  lemma OneByteIsAscii(text: string)
    requires |Encode(text)| == 1
    ensures Encode(text)[0] < 0x80
  {
    assert Encode(text)[0] == EncodeChar(text[0])[0];
  }

  /** Any character that is not ASCII, cut behind its first byte, comes out wrong. */
  lemma CutCharacterIsLost(decode: Bytes -> string, c: char)
    requires Decodes(decode) && c as int >= 0x80 && c != REPLACEMENT
    ensures Joined([EncodeChar(c)[..1], EncodeChar(c)[1..]]) == Encode([c])
    ensures Joined(Decoded(decode, [EncodeChar(c)[..1], EncodeChar(c)[1..]])) != [c]
  {
    var front, back := EncodeChar(c)[..1], EncodeChar(c)[1..];
    var chunks := [front, back];
    assert chunks[1..] == [back] && [back][1..] == [];
    assert Joined([back]) == back + Joined([]) == back;
    assert Joined(chunks) == front + back == EncodeChar(c);
    assert [c][1..] == "" && Encode([c]) == EncodeChar(c) + [];
    if WholeCharacters(front) {
      var s :| Encode(s) == front;
      OneByteIsAscii(s);
      assert false;
    }
    assert chunks[0] == front;
    TextSurvivesIffAligned(decode, [c], chunks);
  }
}
