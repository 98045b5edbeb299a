/** The frames of one stream, and what a sequence of them carries. */
module Frames {
  import opened Common

  datatype Frame = OPEN | DATA(bytes: seq<byte>) | WINDOW(increment: nat) | CLOSE | RESET

  predicate IsEnd(f: Frame) { f == CLOSE || f == RESET }

  function PayloadOf(f: Frame): seq<byte> { if f.DATA? then f.bytes else [] }
  function CreditOf(f: Frame): nat { if f.WINDOW? then f.increment else 0 }

  function Payload(fs: seq<Frame>): seq<byte> {
    if fs == [] then [] else PayloadOf(fs[0]) + Payload(fs[1..])
  }

  function Credits(fs: seq<Frame>): nat {
    if fs == [] then 0 else CreditOf(fs[0]) + Credits(fs[1..])
  }

  lemma OneFrame(f: Frame)
    ensures Payload([f]) == PayloadOf(f) && Credits([f]) == CreditOf(f)
  {
  }

  lemma {:induction false} PayloadConcat(x: seq<Frame>, y: seq<Frame>)
    ensures Payload(x + y) == Payload(x) + Payload(y)
  {
    if x == [] {
      assert x + y == y;
    } else {
      PayloadConcat(x[1..], y);
      assert (x + y)[1..] == x[1..] + y;
      assert PayloadOf(x[0]) + (Payload(x[1..]) + Payload(y)) == Payload(x) + Payload(y);
    }
  }

  lemma {:induction false} CreditsConcat(x: seq<Frame>, y: seq<Frame>)
    ensures Credits(x + y) == Credits(x) + Credits(y)
  {
    if x == [] {
      assert x + y == y;
    } else {
      CreditsConcat(x[1..], y);
      assert (x + y)[1..] == x[1..] + y;
    }
  }

  lemma {:induction false} NoPayload(fs: seq<Frame>)
    requires forall i :: 0 <= i < |fs| ==> !fs[i].DATA?
    ensures Payload(fs) == []
  {
    if fs != [] {
      NoPayload(fs[1..]);
    }
  }
}
