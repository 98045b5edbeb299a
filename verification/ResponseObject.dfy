/** mcpwarp/bridge.go: the response writer object; its methods do what the functions of module ResponseWriter say. */
module ResponseObject {
  import opened Common
  import opened ByteStream
  import opened ResponseWriter

  class StreamResponseWriter {
    const isHead: bool
    var declared: Option<nat>   // the header's Content-Length as of now
    var status: nat
    var snapshot: Option<nat>
    var headSent: bool
    var bodyless: bool
    var chunked: bool
    var length: int             // declared Content-Length, -1 if none
    var written: nat
    var fault: Fault
    var broken: bool            // the stream: its next write fails
    var out: seq<Out>           // the stream: what reached it
    ghost var asked: Bytes
    ghost var chunks: seq<Bytes>

    ghost predicate Valid()
      reads this
    {
      && (!headSent ==> !bodyless && !chunked && length == -1)
      && (headSent && !bodyless && !chunked ==> written <= length)
      && (headSent ==> status != 0 && (fault == NoFault ==> status < 600 && bodyless == IsBodyless(isHead, status)))
    }

    function SentFraming(): Framing
      reads this
    {
      if !headSent || bodyless then Bodyless else if chunked then ChunkedBody else Length(if length < 0 then 0 else length)
    }

    ghost function View(): Writer
      reads this
    {
      Writer(isHead, declared, status, snapshot, headSent, SentFraming(), written, fault, broken, out, asked, chunks)
    }

    constructor (isHead: bool)
      ensures Valid() && View() == New(isHead)
    {
      this.isHead := isHead;
      declared, status, snapshot := None, 0, None;
      headSent, bodyless, chunked, length, written := false, false, false, -1, 0;
      fault, broken, out := NoFault, false, [];
      asked, chunks := [], [];
    }

    method WriteToStream(o: Out)
      modifies this`fault, this`out
      ensures View() == Put(old(View()), o)
    {
      if broken { fault := StreamFault; } else { out := out + [o]; }
    }

    method WriteStatus(code: nat)
      requires Valid() && 100 <= code <= 999
      modifies this`status, this`snapshot
      ensures Valid() && View() == WriteHeader(old(View()), code)
    {
      if status != 0 || code < 200 { return; }
      status := code;
      snapshot := declared;
    }

    method SendHeadOnce(finishing: bool)
      requires Valid() && (status != 0) && (!headSent ==> written == 0)
      modifies this
      ensures Valid() && View() == SendHead(old(View()), finishing)
    {
      if headSent || fault != NoFault { return; }
      headSent := true;
      if status >= 600 {
        bodyless := true;
        WriteToStream(HandlerError);
        if fault == NoFault { fault := BadStatus; }
        return;
      }
      bodyless := IsBodyless(isHead, status);
      if !bodyless {
        if snapshot.Some? { length := snapshot.value; }
        else if finishing { length := 0; }
        else { chunked := true; }
      }
      assert View() == old(View()).(headSent := true, framing := FramingFor(old(View()), finishing));
      WriteToStream(Head(status, SentFraming()));
    }

    method WriteBytes(p: Bytes) returns (r: WriteResult)
      requires Valid() && (!headSent ==> written == 0)
      modifies this
      ensures Valid() && (View(), r) == Write(old(View()), p)
    {
      if status == 0 { WriteStatus(200); }
      if fault != NoFault { return Refused; }
      if IsBodyless(isHead, status) {
        if isHead { return Wrote(|p|); }
        return NotAllowed;
      }
      if |p| == 0 { return Wrote(0); }
      SendHeadOnce(false);
      if fault != NoFault { return Refused; }
      assert Write(View(), p) == Write(old(View()), p);
      r := WriteFramed(p);
    }

    /** A body write behind a sent head. */
    method WriteFramed(p: Bytes) returns (r: WriteResult)
      requires Valid() && headSent && fault == NoFault && !bodyless && p != []
      modifies this
      ensures Valid() && (View(), r) == Write(old(View()), p)
    {
      ghost var u := View();
      asked := asked + p;
      assert View() == u.(asked := u.asked + p);
      if !chunked {
        var remaining := length - written;
        var q := if |p| > remaining then p[..remaining] else p;
        WriteToStream(Data(q));
        if fault != NoFault { return Refused; }
        written := written + |q|;
        return if |q| < |p| then TooLong(|q|) else Wrote(|p|);
      }
      WriteToStream(ChunkData(p));
      if fault != NoFault { return Refused; }
      written := written + |p|;
      chunks := chunks + [p];
      return Wrote(|p|);
    }

    method FlushHead()
      requires Valid() && (!headSent ==> written == 0)
      modifies this
      ensures Valid() && View() == Flush(old(View()))
    {
      if status == 0 { WriteStatus(200); }
      SendHeadOnce(false);
    }

    method FinishResponse()
      requires Valid() && (!headSent ==> written == 0)
      modifies this
      ensures View().out == Finish(old(View())).out
    {
      if status == 0 { WriteStatus(200); }
      SendHeadOnce(true);
      if fault != NoFault {
        if fault == BadStatus { out := out + [CloseWrite]; }
        return;
      }
      if bodyless {
      } else if chunked {
        if broken { return; }
        WriteToStream(LastChunk);
      } else if written < length {
        out := out + [Reset];
        return;
      }
      out := out + [CloseWrite];
    }
  }
}
