/** What mcpwarp/bridge.go's response writer puts on the stream, for every handler. */
module ResponseTheorems {
  import opened Common
  import opened ByteStream
  import opened ResponseWriter
  import Chunked

  /** Everything the handler passed to Write. */
  function Written(calls: seq<Call>): Bytes
    decreases |calls|
  {
    if calls == [] then []
    else
      var c := calls[|calls| - 1];
      Written(calls[..|calls| - 1]) + if c.WriteBody? then c.p else []
  }

  predicate Healthy(calls: seq<Call>) { forall i :: 0 <= i < |calls| ==> calls[i] != Break && Allowed(calls[i]) }

  predicate MayHaveBody(w: Writer) { 200 <= w.status < 600 && !IsBodyless(w.isHead, w.status) }

  lemma WriteAsks(w: Writer, p: Bytes)
    requires Sound(w) && !w.broken
    ensures var v := Write(w, p).0;
            && v.status != 0 && (w.status != 0 ==> v.status == w.status) && v.isHead == w.isHead
            && (MayHaveBody(v) ==> v.asked == w.asked + p)
  {
    if p == [] { assert w.asked + p == w.asked; }
  }

  /** Where a body is allowed, what was asked for is what the handler wrote. */
  lemma {:induction false} AskedIsWritten(isHead: bool, calls: seq<Call>)
    requires Healthy(calls)
    ensures var w := Serve(New(isHead), calls);
            && w.isHead == isHead && (w.status == 0 ==> Written(calls) == [] && !w.headSent)
            && (MayHaveBody(w) ==> w.asked == Written(calls))
    decreases |calls|
  {
    if calls != [] {
      var before := calls[..|calls| - 1];
      AskedIsWritten(isHead, before);
      ServeSound(isHead, before);
      var w := Serve(New(isHead), before);
      assert Written(before) + [] == Written(before);
      match calls[|calls| - 1]
      case WriteBody(p) => WriteAsks(w, p);
      case _ =>
    }
  }

  /** Finish, on a writer whose head is out and whose stream is sound. */
  function Ended(w: Writer): Writer { SendHead(Defaulted(w), true) }

  /** A head sent at the end, on its own. */
  lemma LateHead(w: Writer)
    requires Sound(w) && !w.broken && !w.headSent && w.status >= 200
    ensures var u := SendHead(w, true);
            && u.headSent && u.out != [] && !u.broken
            && (u.status >= 600 ==> u.out == [HandlerError] && u.fault == BadStatus)
            && (u.status < 600 ==> u.fault == NoFault && Framed(u) && (u.framing == Bodyless <==> IsBodyless(u.isHead, u.status)))
  {
    hide ChunkOuts, Flatten, Body;
    var head := Head(w.status, FramingFor(w, true));
    BodyOfHead(head);
    assert [] + [head] == [head] && [] + [HandlerError] == [HandlerError];
  }

  lemma FinishSound(w: Writer)
    requires Sound(w) && !w.broken
    ensures var u := Ended(w);
            && u.headSent && u.status >= 200 && u.out != [] && !u.broken
            && (u.status >= 600 ==> u.out == [HandlerError] && Finish(w).out == [HandlerError, CloseWrite])
            && (u.status < 600 ==> u.fault == NoFault && Framed(u) && (u.framing == Bodyless <==> IsBodyless(u.isHead, u.status)))
            && u.asked == w.asked && u.isHead == w.isHead && (w.status != 0 ==> u.status == w.status) && (w.status == 0 ==> u.status == 200)
  {
    hide Framed;
    var v := Defaulted(w);
    if !v.headSent { LateHead(v); }
    assert [HandlerError] + [CloseWrite] == [HandlerError, CloseWrite];
  }

  /**
   For every handler on a working stream: one head, and then a body exactly as its framing allows,
   and one end: RESET when a declared length was not reached, CLOSE otherwise.
   */
  lemma OneHeadOneEnd(isHead: bool, calls: seq<Call>)
    requires Healthy(calls)
    ensures var w := Serve(New(isHead), calls);
            var u := Ended(w);
            var out := Finish(w).out;
            && (u.status >= 600 ==> out == [HandlerError, CloseWrite])
            && (u.status < 600 && IsBodyless(isHead, u.status) ==> out == [Head(u.status, Bodyless), CloseWrite])
            && (u.status < 600 && !IsBodyless(isHead, u.status) ==>
                  match u.framing
                  case Bodyless => false
                  case ChunkedBody =>
                    && out == [Head(u.status, ChunkedBody)] + ChunkOuts(u.chunks) + [LastChunk, CloseWrite]
                    && Flatten(u.chunks) == Written(calls) && (forall i :: 0 <= i < |u.chunks| ==> u.chunks[i] != [])
                  case Length(n) =>
                    && out == u.out + [if |Written(calls)| < n then Reset else CloseWrite]
                    && u.out != [] && u.out[0] == Head(u.status, Length(n)) && (forall i :: 1 <= i < |u.out| ==> IsData(u.out[i]))
                    && Body(u.out) == Prefix(Written(calls), n))
  {
    hide Serve, Sound, Body, ChunkOuts, Flatten, Written, SendHead;
    var w := Serve(New(isHead), calls);
    ServeSound(isHead, calls);
    AskedIsWritten(isHead, calls);
    FinishSound(w);
    var u := Ended(w);
    AskedAtTheEnd(isHead, calls);
    if u.status < 600 && u.framing.ChunkedBody? {
      assert u.out + [LastChunk] + [CloseWrite] == [Head(u.status, ChunkedBody)] + ChunkOuts(u.chunks) + [LastChunk, CloseWrite];
    }
    if u.status < 600 && u.framing.Bodyless? {
      assert [Head(u.status, Bodyless)] + [CloseWrite] == [Head(u.status, Bodyless), CloseWrite];
    }
  }

  lemma AskedAtTheEnd(isHead: bool, calls: seq<Call>)
    requires Healthy(calls)
    ensures var u := Ended(Serve(New(isHead), calls)); u.isHead == isHead && (MayHaveBody(u) ==> u.asked == Written(calls))
  {
    ServeSound(isHead, calls);
    AskedIsWritten(isHead, calls);
    FinishSound(Serve(New(isHead), calls));
  }

  // ---- on the wire ---------------------------------------------------------------------------

  /** The bytes of a chunked body, as they are written to the stream. */
  function Wire(out: seq<Out>): Bytes
    decreases |out|
  {
    if out == [] then []
    else
      var o := out[|out| - 1];
      Wire(out[..|out| - 1])
      + match o
        case Data(p) => p
        case ChunkData(p) => Chunked.Chunk(p)
        case LastChunk => Chunked.LAST_CHUNK
        case _ => []
  }

  lemma {:induction false} WireOfChunks(chunks: seq<Bytes>)
    ensures Wire(ChunkOuts(chunks)) == Chunked.Chunks(chunks)
    decreases |chunks|
  {
    if chunks == [] {
      assert ChunkOuts([]) == [] && Wire([]) == [] && Chunked.Chunks([]) == [];
    } else {
      hide Wire, ChunkOuts, Chunked.Chunks, Chunked.Chunk;
      var before, p := chunks[..|chunks| - 1], chunks[|chunks| - 1];
      WireOfChunks(before);
      ChunkOutsSnoc(before, p);
      WireSnoc(ChunkOuts(before), ChunkData(p));
      ChunksSnoc(before, p);
      assert before + [p] == chunks;
      WireOfOne(p);
    }
  }

  lemma WireOfOne(p: Bytes)
    ensures Wire([ChunkData(p)]) == Chunked.Chunk(p)
  {
    assert [ChunkData(p)][..0] == [] && [] + Chunked.Chunk(p) == Chunked.Chunk(p);
  }

  lemma WireSnoc(out: seq<Out>, o: Out)
    ensures Wire(out + [o]) == Wire(out) + Wire([o])
  {
    assert (out + [o])[..|out|] == out && [o][..0] == [];
  }

  lemma {:induction false} ChunksSnoc(chunks: seq<Bytes>, p: Bytes)
    ensures Chunked.Chunks(chunks + [p]) == Chunked.Chunks(chunks) + Chunked.Chunk(p)
  {
    if chunks == [] {
      assert [] + [p] == [p] && [p][1..] == [];
    } else {
      ChunksSnoc(chunks[1..], p);
      assert (chunks + [p])[1..] == chunks[1..] + [p] && (chunks + [p])[0] == chunks[0];
      assert Chunked.Chunk(chunks[0]) + (Chunked.Chunks(chunks[1..]) + Chunked.Chunk(p))
          == Chunked.Chunk(chunks[0]) + Chunked.Chunks(chunks[1..]) + Chunked.Chunk(p);
    }
  }

  /** A chunked response, read by the decoder within its cap, gives back what the handler wrote. */
  lemma ChunkedResponseReadsBack(isHead: bool, calls: seq<Call>, ending: Ending, cap: nat)
    requires Healthy(calls) && |Written(calls)| <= cap <= Chunked.INT64_MAX
    requires var u := Ended(Serve(New(isHead), calls)); MayHaveBody(u) && u.framing.ChunkedBody?
    ensures var u := Ended(Serve(New(isHead), calls));
            Chunked.ChunksOf(Wire(ChunkOuts(u.chunks)) + Chunked.LAST_CHUNK, ending, cap, 0) == (Ok(Written(calls)), [])
  {
    hide Chunked.ChunksOf, Serve, Finish;
    var u := Ended(Serve(New(isHead), calls));
    OneHeadOneEnd(isHead, calls);
    AskedAtTheEnd(isHead, calls);
    WireOfChunks(u.chunks);
    Chunked.DecodeEncode(u.chunks, [], ending, cap, 0);
    assert Chunked.Encoded(u.chunks, []) == Wire(ChunkOuts(u.chunks)) + Chunked.LAST_CHUNK;
  }

  // ---- when the stream fails -----------------------------------------------------------------

  /** Before the end: at most one head, first, then body bytes, no more of them than declared. */
  predicate Tidy(w: Writer) {
    && (w.out != [] ==> (w.out[0].Head? || w.out[0].HandlerError?) && w.headSent)
    && (forall i :: 1 <= i < |w.out| ==> w.out[i].Data? || w.out[i].ChunkData?)
    && (w.out == [] && w.headSent ==> w.fault != NoFault)
    && (w.headSent && w.framing.Length? ==> |Body(w.out)| == w.written <= w.framing.n)
    && (!w.headSent ==> w.written == 0 && w.out == [])
  }

  lemma SendHeadTidy(w: Writer, finishing: bool)
    requires Tidy(w)
    ensures Tidy(SendHead(w, finishing))
  {
    if !w.headSent && w.fault == NoFault {
      BodyOfHead(Head(w.status, FramingFor(w, finishing)));
      assert [] + [Head(w.status, FramingFor(w, finishing))] == [Head(w.status, FramingFor(w, finishing))];
    }
  }

  /** One body write behind a sent head. */
  lemma BodyTidy(u: Writer, o: Out, more: nat)
    requires Tidy(u) && u.headSent && u.fault == NoFault && (o.Data? || o.ChunkData?) && |o.p| == more
    requires u.framing.Length? ==> u.written + more <= u.framing.n
    ensures Tidy(u.(out := u.out + [o], written := u.written + more))
  {
    BodySnoc(u.out, o);
  }

  lemma WriteTidy(w0: Writer, p: Bytes)
    requires Tidy(w0)
    ensures Tidy(Write(w0, p).0)
  {
    hide Body;
    var w := Defaulted(w0);
    SendHeadTidy(w, false);
    var u := SendHead(w, false);
    if u.fault == NoFault && u.headSent {
      if u.framing.Length? {
        var q := if |p| > u.framing.n - u.written then p[..u.framing.n - u.written] else p;
        BodyTidy(u, Data(q), |q|);
      } else {
        BodyTidy(u, ChunkData(p), |p|);
      }
    }
  }

  lemma {:induction false} ServeTidy(isHead: bool, calls: seq<Call>)
    ensures Tidy(Serve(New(isHead), calls))
    decreases |calls|
  {
    if calls != [] {
      var before := calls[..|calls| - 1];
      ServeTidy(isHead, before);
      var w := Serve(New(isHead), before);
      match calls[|calls| - 1]
      case WriteBody(p) => WriteTidy(w, p);
      case FlushNow => SendHeadTidy(Defaulted(w), false);
      case _ =>
    }
  }

  predicate IsEnd(o: Out) { o.CloseWrite? || o.Reset? }

  /** Whatever fails and when: at most one head, no more body than declared, and then at most one end. */
  lemma NeverTwoEnds(isHead: bool, calls: seq<Call>)
    ensures var u := Ended(Serve(New(isHead), calls));
            var out := Finish(Serve(New(isHead), calls)).out;
            && (forall i :: 0 <= i < |u.out| ==> !IsEnd(u.out[i]) && (i > 0 ==> !u.out[i].Head? && !u.out[i].HandlerError?))
            && (u.headSent && u.framing.Length? ==> |Body(u.out)| <= u.framing.n)
            && (out == u.out || out == u.out + [LastChunk] || out == u.out + [CloseWrite] || out == u.out + [Reset]
                || out == u.out + [LastChunk, CloseWrite])
  {
    hide Serve, Body;
    var w := Serve(New(isHead), calls);
    ServeTidy(isHead, calls);
    SendHeadTidy(Defaulted(w), true);
    var u := Ended(w);
    assert u.out + [LastChunk] + [CloseWrite] == u.out + [LastChunk, CloseWrite];
  }
}
