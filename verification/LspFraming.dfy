/** Content-Length framing of JSON-RPC messages ("Base Protocol", Header Part, of the Language Server
    Protocol 3.17), parsed incrementally. */
module LspFraming {
  import opened Options
  import opened Sequences
  import opened Octets

  const CR: Byte := 13
  const LF: Byte := 10

  // ---------------------------------------------------------------------------------------------
  // Headers

  predicate EndsHeader(buf: Bytes, k: nat) {
    k + 4 <= |buf| && buf[k] == CR && buf[k + 1] == LF && buf[k + 2] == CR && buf[k + 3] == LF
  }

  /** First position from `i` on where a header ends. */
  function HeaderEnd(buf: Bytes, i: nat): (r: Option<nat>)
    ensures r.Some? ==> i <= r.value && EndsHeader(buf, r.value) && forall k | i <= k < r.value :: !EndsHeader(buf, k)
    ensures r.None? ==> forall k | i <= k :: !EndsHeader(buf, k)
    decreases |buf| - i
  {
    if i + 4 > |buf| then None
    else if EndsHeader(buf, i) then Some(i)
    else HeaderEnd(buf, i + 1)
  }

  /** toString("ascii") drops the top bit. */
  function Ascii(b: Byte): Byte { if b < 128 then b else b - 128 }

  function Lower(b: Byte): Byte { if 65 <= b <= 90 then b + 32 else b }

  /** "content-length:" */
  const FIELD: Bytes := [99, 111, 110, 116, 101, 110, 116, 45, 108, 101, 110, 103, 116, 104, 58]

  predicate FieldAt(h: Bytes, i: nat) {
    i + |FIELD| <= |h| && forall k | 0 <= k < |FIELD| :: Lower(Ascii(h[i + k])) == FIELD[k]
  }

  predicate IsSpace(b: Byte) { 9 <= Ascii(b) <= 13 || Ascii(b) == 32 }

  predicate IsDigit(b: Byte) { 48 <= Ascii(b) <= 57 }

  function SkipSpace(h: Bytes, i: nat): (r: nat)
    requires i <= |h|
    ensures i <= r <= |h|
    decreases |h| - i
  {
    if i < |h| && IsSpace(h[i]) then SkipSpace(h, i + 1) else i
  }

  /** The number whose digits start at `i`, behind digits worth `acc`. */
  function NumberAt(h: Bytes, i: nat, acc: nat): nat
    decreases |h| - i
  {
    if i < |h| && IsDigit(h[i]) then NumberAt(h, i + 1, 10 * acc + (Ascii(h[i]) - 48) as nat) else acc
  }

  /** The first match of /content-length:\s*(\d+)/i from `i` on. */
  function ContentLength(h: Bytes, i: nat): Option<nat>
    decreases |h| - i
  {
    if i >= |h| then None
    else
      var start := if FieldAt(h, i) then SkipSpace(h, i + |FIELD|) else |h|;
      if start < |h| && IsDigit(h[start]) then Some(NumberAt(h, start, 0)) else ContentLength(h, i + 1)
  }

  // ---------------------------------------------------------------------------------------------
  // LspFrameParser.push

  datatype Step = Wait | Drop(rest: Bytes) | Frame(body: Bytes, rest: Bytes)

  /** One round of the loop: wait for more, drop garbage up to the end of a header, or cut off a frame. */
  function Next(buf: Bytes): (s: Step)
    ensures !s.Wait? ==> |s.rest| < |buf|
  {
    match HeaderEnd(buf, 0)
    case None => Wait
    case Some(e) =>
      match ContentLength(buf[..e], 0)
      case None => Drop(buf[e + 4..])
      case Some(n) =>
        if |buf| < e + 4 + n then Wait else Frame(buf[e + 4..e + 4 + n], buf[e + 4 + n..])
  }

  /** The bodies of all complete frames, and what is left over. */
  function Drain(buf: Bytes): (seq<Bytes>, Bytes)
    decreases |buf|
  {
    match Next(buf)
    case Wait => ([], buf)
    case Drop(rest) => Drain(rest)
    case Frame(body, rest) => ([body] + Drain(rest).0, Drain(rest).1)
  }

  /** Bodies that are not valid JSON are skipped. */
  function Decoded<T>(decode: Bytes -> Option<T>, bodies: seq<Bytes>): seq<T> {
    if bodies == [] then []
    else if decode(bodies[0]).None? then Decoded(decode, bodies[1..])
    else [decode(bodies[0]).value] + Decoded(decode, bodies[1..])
  }

  lemma DecodedMore<T>(decode: Bytes -> Option<T>, out: seq<T>, body: Bytes, later: seq<Bytes>)
    ensures out + Decoded(decode, [body] + later)
         == (if decode(body).None? then out else out + [decode(body).value]) + Decoded(decode, later)
  {
    assert ([body] + later)[1..] == later;
    if decode(body).Some? {
      MoveOne(out, decode(body).value, Decoded(decode, later));
    }
  }

  class LspFrameParser<T> {
    const decode: Bytes -> Option<T>
    var buf: Bytes

    constructor (decode: Bytes -> Option<T>)
      ensures this.decode == decode && buf == []
    {
      this.decode, buf := decode, [];
    }

    /** Feeds a chunk; returns every complete message now available. */
    method Push(chunk: Bytes) returns (out: seq<T>)
      modifies this
      ensures out == Decoded(decode, Drain(old(buf) + chunk).0)
      ensures buf == Drain(old(buf) + chunk).1
    {
      buf := buf + chunk;
      out := [];
      while true
        invariant out + Decoded(decode, Drain(buf).0) == Decoded(decode, Drain(old(buf) + chunk).0)
        invariant Drain(buf).1 == Drain(old(buf) + chunk).1
        decreases |buf|
      {
        var headerEnd := HeaderEnd(buf, 0);
        if headerEnd.None? {
          break;
        }
        var length := ContentLength(buf[..headerEnd.value], 0);
        var start := headerEnd.value + 4;
        if length.None? {
          buf := buf[start..];
          continue;
        }
        if |buf| < start + length.value {
          break;
        }
        var body := buf[start..start + length.value];
        buf := buf[start + length.value..];
        DecodedMore(decode, out, body, Drain(buf).0);
        var m := decode(body);
        if m.Some? {
          out := out + [m.value];
        }
      }
    }
  }

  // ---------------------------------------------------------------------------------------------
  // Chunking does not matter

  lemma {:induction false} HeaderEndStable(a: Bytes, b: Bytes, i: nat)
    requires HeaderEnd(a, i).Some?
    ensures HeaderEnd(a + b, i) == HeaderEnd(a, i)
    decreases |a| - i
  {
    if !EndsHeader(a, i) {
      HeaderEndStable(a, b, i + 1);
    }
  }

  lemma NextStable(a: Bytes, b: Bytes)
    requires !Next(a).Wait?
    ensures Next(a).Drop? ==> Next(a + b) == Drop(Next(a).rest + b)
    ensures Next(a).Frame? ==> Next(a + b) == Frame(Next(a).body, Next(a).rest + b)
  {
    HeaderEndStable(a, b, 0);
    var e := HeaderEnd(a, 0).value;
    assert (a + b)[..e] == a[..e];
    var n := ContentLength(a[..e], 0);
    if n.None? {
      assert (a + b)[e + 4..] == a[e + 4..] + b;
    } else {
      assert (a + b)[e + 4..e + 4 + n.value] == a[e + 4..e + 4 + n.value];
      assert (a + b)[e + 4 + n.value..] == a[e + 4 + n.value..] + b;
    }
  }

  /** For arbitrary bytes: what `a` leaves over, followed by `b`, gives what `a + b` gives beyond `a`. */
  lemma {:induction false} DrainAppend(a: Bytes, b: Bytes)
    ensures Drain(a + b).0 == Drain(a).0 + Drain(Drain(a).1 + b).0
    ensures Drain(a + b).1 == Drain(Drain(a).1 + b).1
    decreases |a|
  {
    match Next(a)
    case Wait =>
    case Drop(rest) =>
      NextStable(a, b);
      DrainAppend(rest, b);
    case Frame(body, rest) =>
      NextStable(a, b);
      DrainAppend(rest, b);
  }

  /** The frames a parser yields for a list of chunks, and what it holds in the end. */
  function Fed(buf: Bytes, chunks: seq<Bytes>): (seq<Bytes>, Bytes)
    decreases |chunks|
  {
    if chunks == [] then ([], buf)
    else
      var now := Drain(buf + chunks[0]);
      var later := Fed(now.1, chunks[1..]);
      (now.0 + later.0, later.1)
  }

  lemma {:induction false} DrainTwice(a: Bytes)
    ensures Drain(Drain(a).1) == ([], Drain(a).1)
    decreases |a|
  {
    match Next(a)
    case Wait =>
    case Drop(rest) => DrainTwice(rest);
    case Frame(_, rest) => DrainTwice(rest);
  }

  /** However a byte stream is cut into chunks, the same frames come out and the same rest is held. */
  lemma {:induction false} ChunkingDoesNotMatter(buf: Bytes, chunks: seq<Bytes>)
    requires Drain(buf) == ([], buf)
    ensures Fed(buf, chunks) == Drain(buf + Joined(chunks))
    decreases |chunks|
  {
    if chunks == [] {
      assert buf + [] == buf;
    } else {
      var now := Drain(buf + chunks[0]);
      DrainTwice(buf + chunks[0]);
      ChunkingDoesNotMatter(now.1, chunks[1..]);
      DrainAppend(buf + chunks[0], Joined(chunks[1..]));
      Associate(buf, chunks[0], Joined(chunks[1..]));
    }
  }

  // ---------------------------------------------------------------------------------------------
  // encodeLspMessage

  function Digits(n: nat): (d: Bytes)
    ensures |d| > 0 && forall k | 0 <= k < |d| :: 48 <= d[k] <= 57
  {
    if n < 10 then [(48 + n) as Byte] else Digits(n / 10) + [(48 + n % 10) as Byte]
  }

  /** "Content-Length: " */
  const LABEL: Bytes := [67, 111, 110, 116, 101, 110, 116, 45, 76, 101, 110, 103, 116, 104, 58, 32]

  function Header(n: nat): Bytes { LABEL + Digits(n) }

  function Encode(body: Bytes): Bytes { Header(|body|) + [CR, LF, CR, LF] + body }

  lemma {:induction false} NumberPrefix(h: Bytes, i: nat, acc: nat, d: Byte)
    requires i <= |h| && 48 <= d <= 57 && forall k | i <= k < |h| :: IsDigit(h[k])
    ensures NumberAt(h + [d], i, acc) == 10 * NumberAt(h, i, acc) + (d - 48) as nat
    decreases |h| - i
  {
    if i < |h| {
      NumberPrefix(h, i + 1, 10 * acc + (Ascii(h[i]) - 48) as nat, d);
    } else {
      assert NumberAt(h + [d], i + 1, 10 * acc + (d - 48) as nat) == 10 * acc + (d - 48) as nat;
    }
  }

  lemma {:induction false} NumberOfDigits(front: Bytes, n: nat)
    ensures NumberAt(front + Digits(n), |front|, 0) == n
  {
    if n < 10 {
      var h := front + Digits(n);
      assert NumberAt(h, |front| + 1, n) == n;
    } else {
      NumberOfDigits(front, n / 10);
      NumberPrefix(front + Digits(n / 10), |front|, 0, (48 + n % 10) as Byte);
      assert front + Digits(n) == front + Digits(n / 10) + [(48 + n % 10) as Byte];
    }
  }

  lemma HeaderLength(n: nat)
    ensures ContentLength(Header(n), 0) == Some(n)
  {
    var h := Header(n);
    assert FieldAt(h, 0);
    assert h[16] == Digits(n)[0];
    assert SkipSpace(h, 16) == 16;
    assert SkipSpace(h, 15) == 16;
    NumberOfDigits(LABEL, n);
  }

  lemma {:induction false} HeaderEndsAt(buf: Bytes, i: nat, e: nat)
    requires i <= e && EndsHeader(buf, e) && forall k | i <= k < e :: buf[k] != CR
    ensures HeaderEnd(buf, i) == Some(e)
    decreases e - i
  {
    if i < e {
      HeaderEndsAt(buf, i + 1, e);
    }
  }

  /** An encoded message is cut off as one frame, whatever its body holds and whatever follows. */
  lemma EncodedIsFrame(body: Bytes, rest: Bytes)
    ensures Next(Encode(body) + rest) == Frame(body, rest)
  {
    var h := Header(|body|);
    var buf := Encode(body) + rest;
    assert forall k | 0 <= k < |h| :: buf[k] == h[k];
    HeaderEndsAt(buf, 0, |h|);
    assert buf[..|h|] == h;
    HeaderLength(|body|);
    assert buf[|h| + 4..|h| + 4 + |body|] == body && buf[|h| + 4 + |body|..] == rest;
  }

  function EncodeAll(bodies: seq<Bytes>): Bytes {
    if bodies == [] then [] else Encode(bodies[0]) + EncodeAll(bodies[1..])
  }

  lemma {:induction false} DrainEncoded(bodies: seq<Bytes>)
    ensures Drain(EncodeAll(bodies)) == (bodies, [])
  {
    if bodies != [] {
      EncodedIsFrame(bodies[0], EncodeAll(bodies[1..]));
      DrainEncoded(bodies[1..]);
      assert [bodies[0]] + bodies[1..] == bodies;
    }
  }

  function Serialized<T>(encode: T -> Bytes, messages: seq<T>): seq<Bytes> {
    if messages == [] then [] else [encode(messages[0])] + Serialized(encode, messages[1..])
  }

  lemma {:induction false} DecodedSerialized<T(!new)>(encode: T -> Bytes, decode: Bytes -> Option<T>, messages: seq<T>)
    requires forall m :: decode(encode(m)) == Some(m)
    ensures Decoded(decode, Serialized(encode, messages)) == messages
  {
    if messages != [] {
      DecodedSerialized(encode, decode, messages[1..]);
      assert Serialized(encode, messages)[1..] == Serialized(encode, messages[1..]);
    }
  }

  /** A fresh parser fed any chunking of encoded messages returns exactly those messages, in order. */
  lemma FramingRoundTrip<T(!new)>(encode: T -> Bytes, decode: Bytes -> Option<T>, messages: seq<T>, chunks: seq<Bytes>)
    requires forall m :: decode(encode(m)) == Some(m)
    requires Joined(chunks) == EncodeAll(Serialized(encode, messages))
    ensures Decoded(decode, Fed([], chunks).0) == messages && Fed([], chunks).1 == []
  {
    ChunkingDoesNotMatter([], chunks);
    assert [] + Joined(chunks) == Joined(chunks);
    DrainEncoded(Serialized(encode, messages));
    DecodedSerialized(encode, decode, messages);
  }
}
