/**
 mcpwarp/bridge.go, streamResponseWriter: framing a handler's response.

 The stream is a log of what reached it.  `broken` says that its next write fails.  Header names and
 values, status lines and the error text are left out; `declared` is the header's valid single
 Content-Length, if it has one now, and `snapshot` the same at WriteHeader.
 */
module ResponseWriter {
  import opened Common
  import opened ByteStream

  datatype Framing = Bodyless | ChunkedBody | Length(n: nat)

  datatype Out =
    | Head(status: nat, framing: Framing)
    | HandlerError              // the complete 500 reply
    | Data(p: Bytes)
    | ChunkData(p: Bytes)
    | LastChunk
    | CloseWrite
    | Reset

  datatype Fault = NoFault | StreamFault | BadStatus

  datatype Writer = Writer(
    isHead: bool, declared: Option<nat>,
    status: nat, snapshot: Option<nat>,
    headSent: bool, framing: Framing,   // framing: the fields bodyless, chunked and length, once the head is sent
    written: nat, fault: Fault,
    broken: bool, out: seq<Out>,
    asked: Bytes, chunks: seq<Bytes>)   // history: body bytes asked for, and the chunks written

  function New(isHead: bool): Writer {
    Writer(isHead, None, 0, None, false, Bodyless, 0, NoFault, false, [], [], [])
  }

  predicate IsBodyless(isHead: bool, status: nat) { isHead || status < 200 || status == 204 || status == 304 }

  /** One write to the stream. */
  function Put(w: Writer, o: Out): Writer {
    if w.broken then w.(fault := StreamFault) else w.(out := w.out + [o])
  }

  function WriteHeader(w: Writer, code: nat): Writer {
    if w.status != 0 || code < 200 then w else w.(status := code, snapshot := w.declared)
  }

  function Defaulted(w: Writer): Writer { if w.status == 0 then WriteHeader(w, 200) else w }

  function FramingFor(w: Writer, finishing: bool): Framing {
    if w.status >= 600 || IsBodyless(w.isHead, w.status) then Bodyless
    else if w.snapshot.Some? then Length(w.snapshot.value)
    else if finishing then Length(0)
    else ChunkedBody
  }

  function SendHead(w: Writer, finishing: bool): Writer {
    if w.headSent || w.fault != NoFault then w
    else
      var framing := FramingFor(w, finishing);
      var u := w.(headSent := true, framing := framing);
      if w.status >= 600 then
        var v := Put(u, HandlerError);
        if v.fault == NoFault then v.(fault := BadStatus) else v
      else Put(u, Head(w.status, framing))
  }

  datatype WriteResult = Wrote(n: nat) | NotAllowed | TooLong(n: nat) | Refused

  /** Write: the new state, and what the handler is told. */
  function Write(w0: Writer, p: Bytes): (Writer, WriteResult) {
    var w := Defaulted(w0);
    if w.fault != NoFault then (w, Refused)
    else if IsBodyless(w.isHead, w.status) then (w, if w.isHead then Wrote(|p|) else NotAllowed)
    else if p == [] then (w, Wrote(0))
    else
      var u := SendHead(w, false);
      if u.fault != NoFault then (u, Refused)
      else if u.framing.Length? then
        var q := if |p| > u.framing.n - u.written && u.written <= u.framing.n then p[..u.framing.n - u.written] else p;
        var v := Put(u.(asked := u.asked + p), Data(q));
        if v.fault != NoFault then (v, Refused)
        else (v.(written := v.written + |q|), if |q| < |p| then TooLong(|q|) else Wrote(|p|))
      else
        var v := Put(u.(asked := u.asked + p), ChunkData(p));
        if v.fault != NoFault then (v, Refused)
        else (v.(written := v.written + |p|, chunks := v.chunks + [p]), Wrote(|p|))
  }

  function Flush(w: Writer): Writer { SendHead(Defaulted(w), false) }

  /** The response is complete, or given up. */
  function Finish(w0: Writer): Writer {
    var w := SendHead(Defaulted(w0), true);
    if w.fault == BadStatus then w.(out := w.out + [CloseWrite])
    else if w.fault == StreamFault then w
    else
      match w.framing
      case Bodyless => w.(out := w.out + [CloseWrite])
      case ChunkedBody =>
        var u := Put(w, LastChunk);
        if u.fault != NoFault then u.(fault := w.fault) else u.(out := u.out + [CloseWrite])
      case Length(n) => w.(out := w.out + [if w.written < n then Reset else CloseWrite])
  }

  // ---- handlers ------------------------------------------------------------------------------

  /** What a handler, or the world, does before it returns. */
  datatype Call = Declare(length: Option<nat>) | SetStatus(code: nat) | WriteBody(p: Bytes) | FlushNow | Break

  /** WriteHeader panics for any other code. */
  predicate Allowed(c: Call) { c.SetStatus? ==> 100 <= c.code <= 999 }

  function Apply(w: Writer, c: Call): Writer {
    match c
    case Declare(length) => w.(declared := length)
    case SetStatus(code) => WriteHeader(w, code)
    case WriteBody(p) => Write(w, p).0
    case FlushNow => Flush(w)
    case Break => w.(broken := true)
  }

  function Serve(w: Writer, calls: seq<Call>): Writer
    decreases |calls|
  {
    if calls == [] then w else Apply(Serve(w, calls[..|calls| - 1]), calls[|calls| - 1])
  }

  // ---- the invariant -------------------------------------------------------------------------

  function ChunkOuts(chunks: seq<Bytes>): seq<Out>
    decreases |chunks|
  {
    if chunks == [] then [] else ChunkOuts(chunks[..|chunks| - 1]) + [ChunkData(chunks[|chunks| - 1])]
  }

  predicate IsData(o: Out) { o.Data? }

  /** The body bytes in the log. */
  function Body(out: seq<Out>): Bytes
    decreases |out|
  {
    if out == [] then []
    else
      var o := out[|out| - 1];
      Body(out[..|out| - 1]) + if o.Data? || o.ChunkData? then o.p else []
  }

  function Prefix(s: Bytes, n: nat): Bytes { if n <= |s| then s[..n] else s }

  predicate Framed(w: Writer) {
    match w.framing
    case Bodyless => w.out == [Head(w.status, Bodyless)] && w.asked == [] && w.written == 0
    case ChunkedBody =>
      && w.out == [Head(w.status, ChunkedBody)] + ChunkOuts(w.chunks) && Body(w.out) == w.asked == Flatten(w.chunks)
      && (forall i :: 0 <= i < |w.chunks| ==> w.chunks[i] != [])
    case Length(n) =>
      && w.out != [] && w.out[0] == Head(w.status, Length(n)) && (forall i :: 1 <= i < |w.out| ==> IsData(w.out[i]))
      && Body(w.out) == Prefix(w.asked, n) && w.written == |Body(w.out)| <= n
  }

  /** While nothing failed: no head, no bytes; one head, and behind it what its framing allows. */
  predicate Sound(w: Writer) {
    (w.status == 0 || w.status >= 200) &&
    if !w.headSent then w.out == [] && w.written == 0 && w.asked == [] && w.chunks == [] && w.fault == NoFault
    else
      && w.status >= 200 && w.out != []
      && (if w.status >= 600 then w.fault == BadStatus && w.out == [HandlerError] && w.framing == Bodyless
          else
            && w.fault == NoFault && Framed(w)
            && (w.framing == Bodyless <==> IsBodyless(w.isHead, w.status))
            && (w.framing.Length? ==> w.snapshot == Some(w.framing.n)))
  }

  lemma BodySnoc(out: seq<Out>, o: Out)
    ensures Body(out + [o]) == Body(out) + if o.Data? || o.ChunkData? then o.p else []
  {
    assert (out + [o])[..|out|] == out;
  }

  lemma BodyOfHead(o: Out)
    requires !o.Data? && !o.ChunkData?
    ensures Body([o]) == []
  {
    assert [o][..0] == [];
  }

  lemma SendHeadSound(w: Writer, finishing: bool)
    requires Sound(w) && !w.broken && w.status >= 200
    ensures Sound(SendHead(w, finishing)) || (finishing && !w.headSent && SendHead(w, finishing).framing == Length(0))
    ensures SendHead(w, finishing).headSent
  {
    if !w.headSent {
      var framing := FramingFor(w, finishing);
      BodyOfHead(Head(w.status, framing));
      assert [] + [Head(w.status, framing)] == [Head(w.status, framing)];
      assert [Head(w.status, framing)] + [] == [Head(w.status, framing)];
    }
  }

  lemma LengthWriteSound(w: Writer, p: Bytes)
    requires Sound(w) && w.headSent && w.framing.Length? && !w.broken && w.fault == NoFault && p != []
    ensures var n := w.framing.n;
            var q := if |p| > n - w.written then p[..n - w.written] else p;
            Sound(w.(asked := w.asked + p, out := w.out + [Data(q)], written := w.written + |q|))
  {
    var n := w.framing.n;
    var q := if |p| > n - w.written then p[..n - w.written] else p;
    BodySnoc(w.out, Data(q));
    assert Prefix(w.asked, n) + q == Prefix(w.asked + p, n);
  }

  lemma ChunkOutsSnoc(chunks: seq<Bytes>, p: Bytes)
    ensures ChunkOuts(chunks + [p]) == ChunkOuts(chunks) + [ChunkData(p)]
  {
    assert (chunks + [p])[..|chunks|] == chunks;
  }

  lemma ChunkWriteSound(w: Writer, p: Bytes)
    requires Sound(w) && w.headSent && w.framing.ChunkedBody? && !w.broken && w.fault == NoFault && p != []
    ensures Sound(w.(asked := w.asked + p, out := w.out + [ChunkData(p)], written := w.written + |p|, chunks := w.chunks + [p]))
  {
    hide ChunkOuts, Body, Flatten;
    var head := [Head(w.status, ChunkedBody)];
    BodySnoc(w.out, ChunkData(p));
    FlattenSnoc(w.chunks, p);
    ChunkOutsSnoc(w.chunks, p);
    assert head + ChunkOuts(w.chunks) + [ChunkData(p)] == head + (ChunkOuts(w.chunks) + [ChunkData(p)]);
  }

  lemma WriteSound(w0: Writer, p: Bytes)
    requires Sound(w0) && !w0.broken
    ensures Sound(Write(w0, p).0) && !Write(w0, p).0.broken
  {
    hide Body, Flatten, ChunkOuts;
    var w := Defaulted(w0);
    if w.fault == NoFault && !IsBodyless(w.isHead, w.status) && p != [] {
      SendHeadSound(w, false);
      var u := SendHead(w, false);
      if u.fault == NoFault {
        if u.framing.Length? { LengthWriteSound(u, p); } else { ChunkWriteSound(u, p); }
      }
    }
  }

  lemma {:induction false} ServeSound(isHead: bool, calls: seq<Call>)
    requires forall i :: 0 <= i < |calls| ==> calls[i] != Break && Allowed(calls[i])
    ensures Sound(Serve(New(isHead), calls)) && !Serve(New(isHead), calls).broken
    decreases |calls|
  {
    if calls != [] {
      var before := calls[..|calls| - 1];
      ServeSound(isHead, before);
      var w := Serve(New(isHead), before);
      match calls[|calls| - 1]
      case WriteBody(p) => WriteSound(w, p);
      case FlushNow => SendHeadSound(Defaulted(w), false);
      case _ =>
    }
  }
}
