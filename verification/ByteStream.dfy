/**
 mcpwarp/http1.go, byteReader: parsing a request out of a stream that arrives in arbitrary pieces.

 Every reading function is specified on the whole of what is still to come, so its result cannot
 depend on how the stream was cut up.  A read of the stream never returns data together with an
 error (wsmixer/stream.go:187-229).
 */
module ByteStream {
  import opened Common

  type Bytes = seq<byte>

  const CR: byte := 13
  const LF: byte := 10
  const CRLF: Bytes := [CR, LF]
  const BLANK_LINE: Bytes := [CR, LF, CR, LF]

  /** How the stream ends once its pieces are used up. */
  datatype Ending = Eof | Broken

  datatype Failure =
    | HeadTooLarge | LineTooLong | MalformedSize | BodyTooLarge | MissingCrlf | EndedInBody
    | Incomplete | Lost

  datatype Reply = Ok(data: Bytes) | Err(why: Failure)

  // ---- searching -----------------------------------------------------------------------------

  predicate At(s: Bytes, i: nat, pattern: Bytes) { i + |pattern| <= |s| && s[i..i + |pattern|] == pattern }

  /** The first occurrence at or after `from`. */
  function IndexFrom(s: Bytes, pattern: Bytes, from: nat): (r: Option<nat>)
    ensures r.Some? ==> from <= r.value && At(s, r.value, pattern) && forall i :: from <= i < r.value ==> !At(s, i, pattern)
    ensures r.None? ==> forall i :: from <= i ==> !At(s, i, pattern)
    decreases |s| - from
  {
    if from + |pattern| > |s| then None
    else if At(s, from, pattern) then Some(from)
    else IndexFrom(s, pattern, from + 1)
  }

  lemma AtInPrefix(buf: Bytes, more: Bytes, i: nat, pattern: Bytes)
    ensures At(buf, i, pattern) <==> At(buf + more, i, pattern) && i + |pattern| <= |buf|
  {
    if i + |pattern| <= |buf| { assert (buf + more)[i..i + |pattern|] == buf[i..i + |pattern|]; }
  }

  /** A search that only looks past what it knows to be free of the pattern finds what a full search finds. */
  lemma FoundInPrefix(buf: Bytes, more: Bytes, pattern: Bytes, from: nat)
    requires forall i :: 0 <= i < from ==> !At(buf, i, pattern)
    ensures IndexFrom(buf, pattern, from).Some? ==> IndexFrom(buf + more, pattern, 0) == IndexFrom(buf, pattern, from)
    ensures IndexFrom(buf, pattern, from).None? ==>
              forall i :: 0 <= i && At(buf + more, i, pattern) ==> i + |pattern| > |buf|
  {
    forall i: nat
      ensures At(buf, i, pattern) <==> At(buf + more, i, pattern) && i + |pattern| <= |buf|
    {
      AtInPrefix(buf, more, i, pattern);
    }
    var found := IndexFrom(buf, pattern, from);
    var all := IndexFrom(buf + more, pattern, 0);
    if found.Some? {
      assert At(buf + more, found.value, pattern);
      assert all.value <= found.value;
      assert At(buf, all.value, pattern);
    }
  }

  // ---- the specification ---------------------------------------------------------------------

  function Missing(ending: Ending): Reply { Err(if ending == Eof then Incomplete else Lost) }

  /** The head up to the first blank line, if that ends within max bytes; and what is left then. */
  function HeadOf(rest: Bytes, ending: Ending, max: nat): (Reply, Bytes) {
    var i := IndexFrom(rest, BLANK_LINE, 0);
    if i.Some? && i.value + 4 <= max then (Ok(rest[..i.value]), rest[i.value + 4..])
    else if |rest| >= max then (Err(HeadTooLarge), rest)
    else (Missing(ending), rest)
  }

  function LineOf(rest: Bytes, ending: Ending, max: nat): (Reply, Bytes) {
    var i := IndexFrom(rest, CRLF, 0);
    if i.Some? && i.value <= max then (Ok(rest[..i.value]), rest[i.value + 2..])
    else if |rest| > max + 1 then (Err(LineTooLong), rest)
    else (Missing(ending), rest)
  }

  function ExactlyOf(rest: Bytes, ending: Ending, n: nat): (Reply, Bytes) {
    if n <= |rest| then (Ok(rest[..n]), rest[n..]) else (Missing(ending), rest)
  }

  // ---- the reader ----------------------------------------------------------------------------

  datatype Filled = More | AtEof | Failed

  class ByteReader {
    var buf: Bytes
    var eof: bool
    var pieces: seq<Bytes>   // what the stream's reads will return
    const ending: Ending

    ghost predicate Valid()
      reads this
    {
      eof ==> pieces == [] && ending == Eof
    }

    /** Everything still to come. */
    ghost function Rest(): Bytes
      reads this
    {
      buf + Flatten(pieces)
    }

    constructor (pieces: seq<Bytes>, ending: Ending)
      ensures Valid() && Rest() == Flatten(pieces) && this.ending == ending
    {
      buf, eof, this.pieces, this.ending := [], false, pieces, ending;
    }

    method Fill() returns (r: Filled)
      requires Valid()
      modifies this
      ensures Valid() && Rest() == old(Rest())
      ensures old(buf) <= buf && |pieces| <= old(|pieces|)
      ensures r == More ==> |buf| > |old(buf)| && |pieces| < old(|pieces|)
      ensures r != More ==> buf == old(buf) && pieces == []
      ensures r == AtEof ==> ending == Eof && eof
      ensures r == Failed ==> ending == Broken
    {
      if eof { return AtEof; }
      while pieces != []
        invariant !eof && buf == old(buf) && Rest() == old(Rest()) && |pieces| <= old(|pieces|)
        decreases |pieces|
      {
        var piece := pieces[0];
        assert Flatten(pieces) == piece + Flatten(pieces[1..]);
        assert buf + (piece + Flatten(pieces[1..])) == (buf + piece) + Flatten(pieces[1..]);
        buf := buf + piece;
        pieces := pieces[1..];
        if piece != [] { return More; }
        assert buf == old(buf);
      }
      if ending == Eof {
        eof := true;
        return AtEof;
      }
      return Failed;
    }

    method ReadHead(max: nat) returns (reply: Reply)
      requires Valid()
      modifies this
      ensures Valid() && (reply, Rest()) == HeadOf(old(Rest()), ending, max)
    {
      var scanFrom := 0;
      while true
        invariant Valid() && Rest() == old(Rest()) && scanFrom <= |buf|
        invariant forall i :: 0 <= i && i + 4 <= scanFrom ==> !At(buf, i, BLANK_LINE)
        decreases |pieces|
      {
        var from := if scanFrom < 3 then 0 else scanFrom - 3;
        FoundInPrefix(buf, Flatten(pieces), BLANK_LINE, from);
        var i := IndexFrom(buf, BLANK_LINE, from);
        if i.Some? {
          if i.value + 4 > max { return Err(HeadTooLarge); }
          reply := Ok(buf[..i.value]);
          assert Rest()[..i.value] == buf[..i.value] && Rest()[i.value + 4..] == buf[i.value + 4..] + Flatten(pieces);
          buf := buf[i.value + 4..];
          return;
        }
        if |buf| >= max { return Err(HeadTooLarge); }
        scanFrom := |buf|;
        ghost var before := buf;
        var more := Fill();
        if more != More {
          assert Rest() == buf;
          return if more == AtEof then Err(Incomplete) else Err(Lost);
        }
        StillAbsent(before, buf, BLANK_LINE);
      }
    }

    method ReadLine(max: nat) returns (reply: Reply)
      requires Valid()
      modifies this
      ensures Valid() && (reply, Rest()) == LineOf(old(Rest()), ending, max)
    {
      var scanFrom := 0;
      while true
        invariant Valid() && Rest() == old(Rest()) && scanFrom <= |buf|
        invariant forall i :: 0 <= i && i + 2 <= scanFrom ==> !At(buf, i, CRLF)
        decreases |pieces|
      {
        var from := if scanFrom < 1 then 0 else scanFrom - 1;
        FoundInPrefix(buf, Flatten(pieces), CRLF, from);
        var i := IndexFrom(buf, CRLF, from);
        if i.Some? {
          if i.value > max { return Err(LineTooLong); }
          reply := Ok(buf[..i.value]);
          assert Rest()[..i.value] == buf[..i.value] && Rest()[i.value + 2..] == buf[i.value + 2..] + Flatten(pieces);
          buf := buf[i.value + 2..];
          return;
        }
        if |buf| > max + 1 { return Err(LineTooLong); }
        scanFrom := |buf|;
        ghost var before := buf;
        var more := Fill();
        if more != More {
          assert Rest() == buf;
          return if more == AtEof then Err(Incomplete) else Err(Lost);
        }
        StillAbsent(before, buf, CRLF);
      }
    }

    method ReadExactly(n: nat) returns (reply: Reply)
      requires Valid()
      modifies this
      ensures Valid() && (reply, Rest()) == ExactlyOf(old(Rest()), ending, n)
    {
      while |buf| < n
        invariant Valid() && Rest() == old(Rest())
        decreases |pieces|
      {
        var more := Fill();
        if more != More {
          assert Rest() == buf;
          return if more == AtEof then Err(Incomplete) else Err(Lost);
        }
      }
      reply := Ok(buf[..n]);
      assert Rest()[..n] == buf[..n] && Rest()[n..] == buf[n..] + Flatten(pieces);
      buf := buf[n..];
    }

    /** Reads and drops everything up to the end; the stream's failure is not reported. */
    method Discard()
      requires Valid()
      modifies this
      ensures Valid() && Rest() == [] && (eof <==> ending == Eof)
    {
      buf := [];
      while !eof
        invariant Valid() && buf == [] && (ending == Broken ==> !eof)
        decreases |pieces|, !eof
      {
        var more := Fill();
        if more == Failed { return; }
        buf := [];
      }
    }
  }

  lemma StillAbsent(before: Bytes, buf: Bytes, pattern: Bytes)
    requires before <= buf && forall i :: 0 <= i ==> !At(before, i, pattern)
    ensures forall i :: 0 <= i && i + |pattern| <= |before| ==> !At(buf, i, pattern)
  {
    forall i | 0 <= i && i + |pattern| <= |before|
      ensures !At(buf, i, pattern)
    {
      AtInPrefix(before, buf[|before|..], i, pattern);
      assert before + buf[|before|..] == buf;
    }
  }
}
