/** From the receive buffer to the client: the unseen bytes of the frame at hand are scattered over the
client's messages, and the frame is retired once it is done. */
module FrameDelivery {
  import opened Framing
  import opened FrameReceiver
  import opened InputMessages

  /** The client's message receives, at its cursor, exactly the next unseen bytes of the frame, as many as
      fit; the frame is retired if all of them fitted or in packet mode, and a wakeup is asked for exactly
      when the buffer still begins with a whole frame. */
  method ConsumeInto(r: Receiver, t: Target, bytestream: bool) returns (n: nat)
    requires r.Valid() && Whole(r.Buffered())
    requires t.Valid() && t.message < |t.messages| && r.buffer !in t.messages[t.message].buffers
    modifies r`frameOffset, r`frameSize, r`consumed, r`wakeupNeeded, r`frames, r`handed, r`lossless
    modifies t`message, t`buffer, t`offset, t.messages[t.message], t.messages[t.message].buffers
    ensures r.Valid() && t.Valid() && r.received == old(r.received)
    ensures var m, data, at := t.messages[old(t.message)], old(r.Unconsumed()), old(t.Cursor());
            var cap := old(Capacity(t.messages[t.message].Contents()));
            && at <= cap && n == (if |data| <= cap - at then |data| else cap - at)
            && Concat(m.Contents()) == Overwrite(old(Concat(t.messages[t.message].Contents())), at, data[..n])
            && (if bytestream && n < |data| then r.frames == old(r.frames) && r.consumed == old(r.consumed) + n
                else r.frames == old(r.frames) + [old(Payload(r.Buffered()))] && r.consumed == 0)
            && (bytestream && old(r.lossless) ==> r.lossless && r.Delivered() == old(r.Delivered()) + data[..n])
    ensures r.wakeupNeeded <==> Whole(r.Buffered())
  {
    hide Concat, Overwrite, Place, History, Length16, PayloadLength;
    ghost var data := r.Unconsumed();
    var unseen := r.CopyOut(MAX_PAYLOAD);
    ghost var before := r.Delivered();
    n := t.Append(bytestream, unseen);
    assert r.Unconsumed() == data && r.Delivered() == before;
    var out := r.Consume(bytestream, n);
    assert out == data[..n];
  }
}
