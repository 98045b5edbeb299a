/**
 The chunked coding of section 7.1 of RFC 9112: mcpwarp/http1.go's decoder and the encoder in
 mcpwarp/bridge.go, which are inverse to each other on everything the decoder's cap admits.
 */
module Chunked {
  import opened Common
  import opened ByteStream

  const MAX_CHUNK_LINE := 4096
  const INT64_MAX := 0x7fff_ffff_ffff_ffff

  // ---- hexadecimal ---------------------------------------------------------------------------

  const HEX_DIGITS: Bytes := [48, 49, 50, 51, 52, 53, 54, 55, 56, 57, 97, 98, 99, 100, 101, 102]

  function HexDigit(d: nat): byte
    requires d < 16
  {
    HEX_DIGITS[d]
  }

  /** strconv.FormatInt(n, 16). */
  function FormatHex(n: nat): Bytes {
    if n < 16 then [HexDigit(n)] else FormatHex(n / 16) + [HexDigit(n % 16)]
  }

  predicate IsHexDigit(b: byte) { 48 <= b <= 57 || 65 <= b <= 70 || 97 <= b <= 102 }

  function HexDigitValue(b: byte): (v: nat)
    requires IsHexDigit(b)
    ensures v < 16
  {
    if b <= 57 then b as nat - 48 else if b <= 70 then b as nat - 55 else b as nat - 87
  }

  predicate IsHex(s: Bytes) { s != [] && forall i :: 0 <= i < |s| ==> IsHexDigit(s[i]) }

  function ParseHex(s: Bytes): nat
    requires forall i :: 0 <= i < |s| ==> IsHexDigit(s[i])
  {
    if s == [] then 0 else 16 * ParseHex(s[..|s| - 1]) + HexDigitValue(s[|s| - 1])
  }

  lemma HexDigitRoundTrip(d: nat)
    requires d < 16
    ensures IsHexDigit(HexDigit(d)) && HexDigitValue(HexDigit(d)) == d
  {
    if d < 8 { if d < 4 {} else {} } else { if d < 12 {} else {} }
  }

  lemma {:induction false} HexRoundTrip(n: nat)
    ensures IsHex(FormatHex(n)) && ParseHex(FormatHex(n)) == n
  {
    if n < 16 {
      HexDigitRoundTrip(n);
      assert FormatHex(n)[..0] == [];
    } else {
      HexRoundTrip(n / 16);
      HexDigitRoundTrip(n % 16);
      var s := FormatHex(n);
      assert s[..|s| - 1] == FormatHex(n / 16);
    }
  }

  function Pow16(k: nat): nat { if k == 0 then 1 else 16 * Pow16(k - 1) }

  lemma {:induction false} HexIsShort(n: nat, k: nat)
    requires n < Pow16(k) && k > 0
    ensures |FormatHex(n)| <= k
  {
    assert Pow16(1) == 16 * Pow16(0);
    if n >= 16 { HexIsShort(n / 16, k - 1); }
  }

  // ---- the chunk-size line -------------------------------------------------------------------

  predicate IsSpace(b: byte) { b == 32 || 9 <= b <= 13 }

  function TrimLeft(s: Bytes): Bytes { if s != [] && IsSpace(s[0]) then TrimLeft(s[1..]) else s }

  function TrimRight(s: Bytes): Bytes {
    if s != [] && IsSpace(s[|s| - 1]) then TrimRight(s[..|s| - 1]) else s
  }

  function BeforeSemicolon(s: Bytes): Bytes { if s == [] || s[0] == 59 then [] else [s[0]] + BeforeSemicolon(s[1..]) }

  datatype Size = Malformed | TooBig | Size(n: nat)

  /** A chunk-size line: extensions ignored, spaces trimmed, and a number that must fit an int64. */
  function SizeOf(line: Bytes): Size {
    var text := TrimRight(TrimLeft(BeforeSemicolon(line)));
    if !IsHex(text) then Malformed
    else if ParseHex(text) > INT64_MAX then TooBig
    else Size(ParseHex(text))
  }

  // ---- the decoder, on the whole stream ------------------------------------------------------

  /** The trailer section: lines dropped up to an empty one. */
  function TrailersOf(rest: Bytes, ending: Ending): (Reply, Bytes)
    decreases |rest|
  {
    var (line, after) := LineOf(rest, ending, MAX_CHUNK_LINE);
    if line.Err? then (line, after)
    else if line.data == [] then (Ok([]), after)
    else TrailersOf(after, ending)
  }

  function WithData(data: Bytes, r: (Reply, Bytes)): (Reply, Bytes) {
    if r.0.Ok? then (Ok(data + r.0.data), r.1) else r
  }

  /** n bytes of data and the CRLF behind them. */
  function DataOf(after: Bytes, ending: Ending, n: nat): (r: (Reply, Bytes))
    ensures r.0.Ok? ==> |r.0.data| == n && |r.1| + n < |after|
  {
    var (data, behind) := ExactlyOf(after, ending, n);
    if data.Err? then (data, behind)
    else
      var (crlf, next) := LineOf(behind, ending, MAX_CHUNK_LINE);
      if crlf.Err? then (crlf, next)
      else if crlf.data != [] then (Err(MissingCrlf), next)
      else (data, next)
  }

  datatype Piece = Next(data: Bytes) | Last | Wrong(why: Failure)

  /** The chunk at the head of `rest`, `total` bytes of body having been read. */
  function ChunkOf(rest: Bytes, ending: Ending, cap: nat, total: nat): (r: (Piece, Bytes))
    ensures r.0.Next? ==> r.0.data != [] && total + |r.0.data| <= cap && |r.1| < |rest|
  {
    var (line, after) := LineOf(rest, ending, MAX_CHUNK_LINE);
    if line.Err? then (Wrong(line.why), after)
    else
      match SizeOf(line.data)
      case Malformed => (Wrong(MalformedSize), after)
      case TooBig => (Wrong(BodyTooLarge), after)
      case Size(n) =>
        if n == 0 then (Last, after)
        else if total + n > cap then (Wrong(BodyTooLarge), after)
        else
          var (data, next) := DataOf(after, ending, n);
          if data.Err? then (Wrong(data.why), next) else (Next(data.data), next)
  }

  lemma ChunkShrinks(rest: Bytes, ending: Ending, cap: nat, total: nat)
    ensures var (piece, next) := ChunkOf(rest, ending, cap, total);
            piece.Next? ==> piece.data != [] && total + |piece.data| <= cap && |next| < |rest|
  {
  }

  /** All chunks from `rest` on, and the trailers. */
  function ChunksOf(rest: Bytes, ending: Ending, cap: nat, total: nat): (Reply, Bytes)
    decreases |rest|
  {
    var (piece, next) := ChunkOf(rest, ending, cap, total);
    match piece
    case Wrong(why) => (Err(why), next)
    case Last => TrailersOf(next, ending)
    case Next(data) => WithData(data, ChunksOf(next, ending, cap, total + |data|))
  }

  // ---- the encoder ---------------------------------------------------------------------------

  /** What one Write of p puts on the stream. */
  function Chunk(p: Bytes): Bytes { FormatHex(|p|) + CRLF + p + CRLF }

  const LAST_CHUNK: Bytes := [48, CR, LF, CR, LF]

  function Chunks(writes: seq<Bytes>): Bytes {
    if writes == [] then [] else Chunk(writes[0]) + Chunks(writes[1..])
  }

  // ---- decoding what was encoded -------------------------------------------------------------

  /** A line without a CR, then CRLF. */
  lemma PlainLine(line: Bytes, rest: Bytes, ending: Ending, max: nat)
    requires |line| <= max && forall i :: 0 <= i < |line| ==> line[i] != CR
    ensures LineOf(line + CRLF + rest, ending, max) == (Ok(line), rest)
  {
    var s := line + CRLF + rest;
    assert s[|line|..|line| + 2] == CRLF;
    forall i | 0 <= i < |line|
      ensures !At(s, i, CRLF)
    {
      assert s[i] == line[i] && s[i..i + 2][0] == s[i];
    }
    assert At(s, |line|, CRLF);
    assert IndexFrom(s, CRLF, 0) == Some(|line|);
    assert s[..|line|] == line && s[|line| + 2..] == rest;
  }

  lemma TrimKeepsHex(text: Bytes)
    requires IsHex(text)
    ensures TrimRight(TrimLeft(BeforeSemicolon(text))) == text
  {
    NoSemicolon(text);
    assert !IsSpace(text[0]) && !IsSpace(text[|text| - 1]);
  }

  lemma {:induction false} NoSemicolon(s: Bytes)
    requires forall i :: 0 <= i < |s| ==> s[i] != 59
    ensures BeforeSemicolon(s) == s
  {
    if s != [] {
      NoSemicolon(s[1..]);
      assert [s[0]] + s[1..] == s;
    }
  }

  lemma SizeLine(n: nat, rest: Bytes, ending: Ending)
    requires n <= INT64_MAX
    ensures LineOf(FormatHex(n) + CRLF + rest, ending, MAX_CHUNK_LINE) == (Ok(FormatHex(n)), rest)
    ensures SizeOf(FormatHex(n)) == Size(n)
  {
    HexRoundTrip(n);
    assert Pow16(16) == 0x1_0000_0000_0000_0000 by { Pow16Is(); }
    HexIsShort(n, 16);
    PlainLine(FormatHex(n), rest, ending, MAX_CHUNK_LINE);
    TrimKeepsHex(FormatHex(n));
  }

  lemma Pow16Is()
    ensures Pow16(16) == 0x1_0000_0000_0000_0000
  {
    assert Pow16(4) == 0x1_0000;
    assert Pow16(8) == 0x1_0000_0000;
    assert Pow16(12) == 0x1_0000_0000_0000;
  }

  lemma LastChunkIs(tail: Bytes, ending: Ending, cap: nat, total: nat)
    ensures ChunkOf(LAST_CHUNK + tail, ending, cap, total) == (Last, CRLF + tail)
    ensures TrailersOf(CRLF + tail, ending) == (Ok([]), tail)
  {
    assert FormatHex(0) == [48];
    assert LAST_CHUNK + tail == FormatHex(0) + CRLF + (CRLF + tail);
    SizeLine(0, CRLF + tail, ending);
    assert [] + CRLF + tail == CRLF + tail;
    PlainLine([], tail, ending, MAX_CHUNK_LINE);
  }

  lemma DataDecodes(p: Bytes, rest: Bytes, ending: Ending)
    ensures DataOf(p + (CRLF + rest), ending, |p|) == (Ok(p), rest)
  {
    var after := p + (CRLF + rest);
    assert after[..|p|] == p && after[|p|..] == CRLF + rest;
    assert [] + CRLF + rest == CRLF + rest;
    PlainLine([], rest, ending, MAX_CHUNK_LINE);
  }

  /** A chunk within the cap comes back whole; one beyond it is refused. */
  lemma ChunkIs(p: Bytes, rest: Bytes, ending: Ending, cap: nat, total: nat)
    requires p != [] && |p| <= INT64_MAX && total <= cap
    ensures total + |p| <= cap ==> ChunkOf(Chunk(p) + rest, ending, cap, total) == (Next(p), rest)
    ensures total + |p| > cap ==> ChunkOf(Chunk(p) + rest, ending, cap, total).0 == Wrong(BodyTooLarge)
  {
    var after := p + (CRLF + rest);
    assert Chunk(p) + rest == FormatHex(|p|) + CRLF + after;
    SizeLine(|p|, after, ending);
    DataDecodes(p, rest, ending);
  }

  lemma ChunksStep(rest: Bytes, ending: Ending, cap: nat, total: nat, piece: Piece, next: Bytes)
    requires ChunkOf(rest, ending, cap, total) == (piece, next)
    ensures piece.Next? ==> ChunksOf(rest, ending, cap, total) == WithData(piece.data, ChunksOf(next, ending, cap, total + |piece.data|))
    ensures piece.Last? ==> ChunksOf(rest, ending, cap, total) == TrailersOf(next, ending)
    ensures piece.Wrong? ==> ChunksOf(rest, ending, cap, total) == (Err(piece.why), next)
  {
    hide ChunkOf, TrailersOf;
  }

  function Encoded(writes: seq<Bytes>, tail: Bytes): Bytes { Chunks(writes) + LAST_CHUNK + tail }

  lemma EncodedSplits(writes: seq<Bytes>, tail: Bytes)
    ensures writes == [] ==> Encoded(writes, tail) == LAST_CHUNK + tail
    ensures writes != [] ==> Encoded(writes, tail) == Chunk(writes[0]) + Encoded(writes[1..], tail)
  {
  }

  /** Any non-empty writes within the cap come back as their concatenation, and what follows them is untouched. */
  lemma {:induction false} DecodeEncode(writes: seq<Bytes>, tail: Bytes, ending: Ending, cap: nat, total: nat)
    requires forall i :: 0 <= i < |writes| ==> writes[i] != []
    requires total + |Flatten(writes)| <= cap <= INT64_MAX
    ensures ChunksOf(Encoded(writes, tail), ending, cap, total) == (Ok(Flatten(writes)), tail)
    decreases |writes|
  {
    hide ChunkOf, ChunksOf, TrailersOf, Encoded, Chunk;
    EncodedSplits(writes, tail);
    if writes == [] {
      LastChunkIs(tail, ending, cap, total);
      ChunksStep(LAST_CHUNK + tail, ending, cap, total, Last, CRLF + tail);
    } else {
      var p, rest := writes[0], Encoded(writes[1..], tail);
      DecodeEncode(writes[1..], tail, ending, cap, total + |p|);
      ChunkIs(p, rest, ending, cap, total);
      ChunksStep(Chunk(p) + rest, ending, cap, total, Next(p), rest);
    }
  }

  /** Writes beyond the cap are refused, never truncated. */
  lemma {:induction false} OverCapIsRefused(writes: seq<Bytes>, tail: Bytes, ending: Ending, cap: nat, total: nat)
    requires forall i :: 0 <= i < |writes| ==> writes[i] != [] && |writes[i]| <= INT64_MAX
    requires total <= cap < total + |Flatten(writes)| && cap <= INT64_MAX
    ensures ChunksOf(Encoded(writes, tail), ending, cap, total).0 == Err(BodyTooLarge)
    decreases |writes|
  {
    hide ChunkOf, ChunksOf, TrailersOf, Encoded, Chunk;
    EncodedSplits(writes, tail);
    var p, rest := writes[0], Encoded(writes[1..], tail);
    ChunkIs(p, rest, ending, cap, total);
    var (piece, next) := ChunkOf(Chunk(p) + rest, ending, cap, total);
    ChunksStep(Chunk(p) + rest, ending, cap, total, piece, next);
    if total + |p| <= cap { OverCapIsRefused(writes[1..], tail, ending, cap, total + |p|); }
  }

  // ---- the loops -----------------------------------------------------------------------------

  method ReadTrailers(r: ByteReader) returns (reply: Reply)
    requires r.Valid()
    modifies r
    ensures r.Valid() && (reply, r.Rest()) == TrailersOf(old(r.Rest()), r.ending)
    ensures reply.Ok? ==> reply.data == []
  {
    while true
      invariant r.Valid() && TrailersOf(r.Rest(), r.ending) == TrailersOf(old(r.Rest()), r.ending)
      decreases |r.Rest()|
    {
      var line := r.ReadLine(MAX_CHUNK_LINE);
      if line.Err? { return line; }
      if line.data == [] { return Ok([]); }
    }
  }

  lemma WithDataTwice(a: Bytes, b: Bytes, r: (Reply, Bytes))
    ensures WithData(a, WithData(b, r)) == WithData(a + b, r)
  {
    if r.0.Ok? { assert a + (b + r.0.data) == (a + b) + r.0.data; }
  }

  lemma WithNothing(r: (Reply, Bytes))
    ensures WithData([], r) == r
  {
    if r.0.Ok? { assert [] + r.0.data == r.0.data; }
  }

  /** One turn of readChunkedBody's first loop. */
  method ReadChunk(r: ByteReader, cap: nat, total: nat) returns (piece: Piece)
    requires r.Valid() && total <= cap <= INT64_MAX
    modifies r
    ensures r.Valid() && (piece, r.Rest()) == ChunkOf(old(r.Rest()), r.ending, cap, total)
  {
    var line := r.ReadLine(MAX_CHUNK_LINE);
    if line.Err? { return Wrong(line.why); }
    var size := SizeOf(line.data);
    if size.Malformed? { return Wrong(MalformedSize); }
    if size.TooBig? { return Wrong(BodyTooLarge); }
    if size.n == 0 { return Last; }
    if size.n > cap - total { return Wrong(BodyTooLarge); }
    var data := r.ReadExactly(size.n);
    if data.Err? { return Wrong(data.why); }
    var crlf := r.ReadLine(MAX_CHUNK_LINE);
    if crlf.Err? { return Wrong(crlf.why); }
    if crlf.data != [] { return Wrong(MissingCrlf); }
    return Next(data.data);
  }

  /** The running total never passes the cap, so an int64 holds it and `cap - total`. */
  method ReadChunkedBody(r: ByteReader, cap: nat) returns (reply: Reply)
    requires r.Valid() && cap <= INT64_MAX
    modifies r
    ensures r.Valid() && (reply, r.Rest()) == ChunksOf(old(r.Rest()), r.ending, cap, 0)
    ensures reply.Ok? ==> |reply.data| <= cap
  {
    hide ChunkOf, ChunksOf, TrailersOf;
    var body: Bytes := [];
    var total := 0;
    ghost var whole := ChunksOf(r.Rest(), r.ending, cap, 0);
    WithNothing(whole);
    while true
      invariant r.Valid() && 0 <= total <= cap && |body| == total
      invariant WithData(body, ChunksOf(r.Rest(), r.ending, cap, total)) == whole
      decreases |r.Rest()|
    {
      ghost var rest := r.Rest();
      var piece := ReadChunk(r, cap, total);
      ChunksStep(rest, r.ending, cap, total, piece, r.Rest());
      ChunkShrinks(rest, r.ending, cap, total);
      match piece
      case Wrong(why) => return Err(why);
      case Last =>
        reply := ReadTrailers(r);
        assert body + [] == body;
        if reply.Ok? { reply := Ok(body); }
        return;
      case Next(data) =>
        WithDataTwice(body, data, ChunksOf(r.Rest(), r.ending, cap, total + |data|));
        total := total + |data|;
        body := body + data;
    }
  }

  datatype Framing = NoBody | Length(n: nat) | ChunkedBody

  /** The body a request head announces; a stream that ends inside it is a malformed request. */
  method ReadRequestBody(r: ByteReader, framing: Framing, max: nat) returns (reply: Reply)
    requires r.Valid() && max <= INT64_MAX
    modifies r
    ensures r.Valid()
    ensures framing.NoBody? ==> reply == Ok([]) && r.Rest() == old(r.Rest())
    ensures framing.Length? && framing.n > max ==> reply == Err(BodyTooLarge) && r.Rest() == old(r.Rest())
    ensures framing.Length? && framing.n <= max ==>
              reply == InBody(ExactlyOf(old(r.Rest()), r.ending, framing.n).0)
              && r.Rest() == ExactlyOf(old(r.Rest()), r.ending, framing.n).1
    ensures framing.ChunkedBody? ==>
              reply == InBody(ChunksOf(old(r.Rest()), r.ending, max, 0).0) && r.Rest() == ChunksOf(old(r.Rest()), r.ending, max, 0).1
    ensures reply.Ok? ==> |reply.data| <= max
  {
    match framing
    case NoBody => return Ok([]);
    case Length(n) =>
      if n > max { return Err(BodyTooLarge); }
      reply := r.ReadExactly(n);
      reply := InBody(reply);
    case ChunkedBody =>
      reply := ReadChunkedBody(r, max);
      reply := InBody(reply);
  }

  function InBody(reply: Reply): Reply { if reply == Err(Incomplete) then Err(EndedInBody) else reply }

  /** However the stream is cut up, reading what a chunked response wrote gives back the writes. */
  method ReadBack(writes: seq<Bytes>, pieces: seq<Bytes>, tail: Bytes, ending: Ending, max: nat) returns (reply: Reply)
    requires forall i :: 0 <= i < |writes| ==> writes[i] != []
    requires |Flatten(writes)| <= max <= INT64_MAX
    requires Flatten(pieces) == Encoded(writes, tail)
    ensures reply == Ok(Flatten(writes))
  {
    var r := new ByteReader(pieces, ending);
    DecodeEncode(writes, tail, ending, max, 0);
    reply := ReadRequestBody(r, ChunkedBody, max);
  }
}
