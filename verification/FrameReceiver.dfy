/** Receiving frames from one ICE-TCP socket through a fixed buffer.

The socket may hand over the stream in any pieces. The buffer holds the bytes from the next frame on;
a refill first moves them to its start. `received`, `frames` and `handed` record the history: every byte
read from the socket, every frame retired, and the part of it that was copied to the client; `lossless`
says that every frame so far was copied in full. */
module FrameReceiver {
  import opened Framing

  const BUFFER_SIZE: nat := HEADER + MAX_PAYLOAD

  /** What the socket offers: nothing, or bytes of which a read takes what fits. */
  datatype SocketData = Quiet(closed: bool) | Readable(bytes: seq<byte>, failed: bool)

  datatype Outcome = WouldBlock | SocketError | Exposed(payload: seq<byte>)

  lemma Window(b: array<byte>, low: nat, high: nat, i: nat, j: nat)
    requires low <= high <= b.Length && i <= j <= high - low
    ensures b[low..high][i..j] == b[low + i..low + j]
  {
    forall k | 0 <= k < j - i
      ensures b[low..high][i..j][k] == b[low + i..low + j][k]
    {
    }
  }

  // Nothing received is lost or duplicated: it was retired in frames, or it is still buffered.
  ghost predicate History(received: seq<byte>, frames: seq<seq<byte>>, handed: seq<seq<byte>>, lossless: bool, buffered: seq<byte>) {
    && Framable(frames)
    && received == Enframe(frames) + buffered
    && |handed| == |frames|
    && (forall i :: 0 <= i < |frames| ==> handed[i] <= frames[i])
    && (lossless ==> handed == frames)
  }

  lemma HistoryGrows(received: seq<byte>, frames: seq<seq<byte>>, handed: seq<seq<byte>>, lossless: bool,
                     buffered: seq<byte>, more: seq<byte>)
    requires History(received, frames, handed, lossless, buffered)
    ensures History(received + more, frames, handed, lossless, buffered + more)
  {
  }

  lemma HistoryRetires(received: seq<byte>, frames: seq<seq<byte>>, handed: seq<seq<byte>>, lossless: bool,
                       buffered: seq<byte>, seen: nat)
    requires History(received, frames, handed, lossless, buffered) && Whole(buffered) && seen <= |Payload(buffered)|
    ensures var p := Payload(buffered);
            History(received, frames + [p], handed + [p[..seen]], lossless && seen == |p|, AfterFrame(buffered))
  {
    hide Enframe;
    var p := Payload(buffered);
    SplitHead(buffered);
    EnframeAppend(frames, p);
    assert seen == |p| ==> p[..seen] == p;
    assert Framable(frames + [p]);
    assert Enframe(frames) + (Header(|p|) + p + AfterFrame(buffered)) == Enframe(frames) + (Header(|p|) + p) + AfterFrame(buffered);
  }

  class Receiver {
    var buffer: array<byte>
    var bufferOffset: nat
    var frameOffset: nat
    var frameSize: nat
    var consumed: nat
    var wakeupNeeded: bool
    ghost var received: seq<byte>
    ghost var frames: seq<seq<byte>>
    ghost var handed: seq<seq<byte>>
    ghost var lossless: bool

    // The bytes from the next frame on.
    ghost function Buffered(): seq<byte>
      requires frameOffset <= bufferOffset <= buffer.Length
      reads this, buffer
    {
      buffer[frameOffset..bufferOffset]
    }

    ghost predicate Valid()
      reads this, buffer
    {
      && buffer.Length == BUFFER_SIZE
      && frameOffset <= bufferOffset <= BUFFER_SIZE
      && (frameSize == 0 <==> |Buffered()| < HEADER)
      && (frameSize != 0 ==> frameSize == HEADER + PayloadLength(Buffered()))
      && (consumed > 0 ==> Whole(Buffered()) && consumed < frameSize - HEADER)
      && History(received, frames, handed, lossless, Buffered())
    }

    constructor ()
      ensures Valid() && fresh(buffer)
      ensures received == [] && frames == [] && handed == [] && lossless && !wakeupNeeded
    {
      buffer := new byte[BUFFER_SIZE];
      bufferOffset, frameOffset, frameSize, consumed, wakeupNeeded := 0, 0, 0, 0, false;
      received, frames, handed, lossless := [], [], [], true;
    }

    function Headroom(): nat
      requires frameOffset <= bufferOffset
      reads this
    {
      bufferOffset - frameOffset
    }

    // The length field at the head of the buffered bytes.
    function FrameLength(): (n: nat)
      requires frameOffset + HEADER <= bufferOffset <= buffer.Length
      reads this, buffer
      ensures n == PayloadLength(Buffered())
    {
      Length16(buffer[frameOffset], buffer[frameOffset + 1])
    }

    // Moves what is buffered to the start of the buffer.
    method Compact()
      requires Valid()
      modifies this`bufferOffset, this`frameOffset, buffer
      ensures Valid() && frameOffset == 0 && Buffered() == old(Buffered()) && buffer == old(buffer)
    {
      hide History;
      var headroom := Headroom();
      ghost var before := Buffered();
      if headroom > 0 {
        forall k | 0 <= k < headroom {
          buffer[k] := buffer[frameOffset + k];
        }
      }
      bufferOffset, frameOffset := headroom, 0;
      assert Buffered() == before;
    }

    // Reads what fits behind the buffered bytes, and the length field once it is there.
    method Refill(bytes: seq<byte>) returns (n: nat)
      requires Valid() && frameOffset == 0 && !Whole(Buffered()) && consumed == 0
      modifies this`bufferOffset, this`frameSize, this`received, buffer
      ensures Valid() && buffer == old(buffer)
      ensures n <= |bytes| && Buffered() == old(Buffered()) + bytes[..n]
      ensures n == |bytes| || bufferOffset == BUFFER_SIZE
      ensures bytes != [] ==> n > 0
      ensures received == old(received) + bytes[..n]
    {
      hide History, Length16, FrameLength;
      var headroom := bufferOffset;
      ghost var before := Buffered();
      n := if |bytes| < BUFFER_SIZE - headroom then |bytes| else BUFFER_SIZE - headroom;
      forall k | 0 <= k < n {
        buffer[headroom + k] := bytes[k];
      }
      bufferOffset := bufferOffset + n;
      assert Buffered() == before + bytes[..n];
      HistoryGrows(received, frames, handed, lossless, before, bytes[..n]);
      received := received + bytes[..n];
      if frameSize == 0 && bufferOffset >= HEADER {
        frameSize := HEADER + FrameLength();
      }
    }

    /** One read attempt: a whole frame is exposed exactly when the buffered bytes begin with one, and a
        refill happens only when they do not; it always has room. */
    method Receive(socket: SocketData) returns (r: Outcome, n: nat)
      requires Valid()
      modifies this`bufferOffset, this`frameOffset, this`frameSize, this`received, buffer
      ensures Valid() && buffer == old(buffer)
      ensures socket.Quiet? || socket.failed || old(Whole(Buffered())) ==> n == 0
      ensures socket.Readable? ==> n <= |socket.bytes|
      ensures socket.Readable? && !socket.failed && !old(Whole(Buffered())) && socket.bytes != [] ==> n > 0
      ensures received == old(received) + (if n == 0 then [] else socket.bytes[..n])
      ensures Buffered() == old(Buffered()) + (if n == 0 then [] else socket.bytes[..n])
      ensures r.Exposed? <==> Whole(Buffered())
      ensures r.Exposed? ==> r.payload == Payload(Buffered())
      ensures r.Exposed? ==> Deframe(received) == frames + [r.payload] + Deframe(AfterFrame(Buffered()))
      ensures !r.Exposed? ==> Deframe(received) == frames
      ensures r.SocketError? ==> (socket.Quiet? && socket.closed) || (socket.Readable? && socket.failed)
    {
      hide Enframe, Deframe, Length16;
      n := 0;
      var failed := false;
      assert old(received) + [] == old(received) && old(Buffered()) + [] == old(Buffered());
      if frameSize == 0 || Headroom() < frameSize {
        if socket.Quiet? {
          failed := socket.closed;
        } else if |socket.bytes| > 0 {
          Compact();
          if socket.failed {
            failed := true;
          } else {
            n := Refill(socket.bytes);
          }
        }
      }
      r := Expose(failed);
    }

    // The frame at the head of the buffer, if it is whole.
    method Expose(failed: bool) returns (r: Outcome)
      requires Valid()
      ensures r.Exposed? <==> Whole(Buffered())
      ensures r.Exposed? ==> r.payload == Payload(Buffered())
      ensures r.Exposed? ==> Deframe(received) == frames + [r.payload] + Deframe(AfterFrame(Buffered()))
      ensures !r.Exposed? ==> Deframe(received) == frames && (r.SocketError? <==> failed)
    {
      hide Enframe, Deframe, Length16;
      NextFrame(frames, Buffered());
      if frameSize != 0 && Headroom() >= frameSize {
        r := Exposed(buffer[frameOffset + HEADER..frameOffset + frameSize]);
        Window(buffer, frameOffset, bufferOffset, HEADER, frameSize);
      } else {
        r := if failed then SocketError else WouldBlock;
      }
    }

    // The payload bytes of the current frame that the client has not seen.
    ghost function Unconsumed(): seq<byte>
      requires Valid() && Whole(Buffered())
      reads this, buffer
    {
      Payload(Buffered())[consumed..]
    }

    // What the client has read, when nothing was lost.
    ghost function Delivered(): seq<byte>
      requires Valid()
      reads this, buffer
    {
      Concat(frames) + if Whole(Buffered()) then Payload(Buffered())[..consumed] else []
    }

    /** Without losses, what the client has read is always the beginning of the concatenated payloads. */
    lemma DeliveredInOrder()
      requires Valid() && lossless
      ensures Delivered() <= Concat(Deframe(received))
    {
      hide Enframe, Deframe;
      NextFrame(frames, Buffered());
      if Whole(Buffered()) {
        var p := Payload(Buffered());
        ConcatMore(frames + [p], Deframe(AfterFrame(Buffered())));
        ConcatAppend(frames, p);
      }
    }

    // Retires the frame at the head of the buffer, of which `seen` bytes were handed over.
    method Retire(ghost seen: nat)
      requires Valid() && Whole(Buffered()) && seen <= |Payload(Buffered())|
      modifies this`frameOffset, this`frameSize, this`consumed, this`wakeupNeeded, this`frames, this`handed, this`lossless
      ensures Valid() && consumed == 0
      ensures frames == old(frames) + [old(Payload(Buffered()))]
      ensures handed == old(handed) + [old(Payload(Buffered()))[..seen]]
      ensures lossless <==> old(lossless) && seen == |old(Payload(Buffered()))|
      ensures Buffered() == old(AfterFrame(Buffered()))
      ensures wakeupNeeded <==> Whole(Buffered())
    {
      hide History, Length16, PayloadLength, FrameLength;
      ghost var s, p := Buffered(), Payload(Buffered());
      HistoryRetires(received, frames, handed, lossless, s, seen);
      frames, handed, lossless := frames + [p], handed + [p[..seen]], lossless && seen == |p|;
      frameOffset := frameOffset + frameSize;
      frameSize, consumed := 0, 0;
      assert Buffered() == AfterFrame(s);
      if Headroom() >= HEADER {
        frameSize := HEADER + FrameLength();
        wakeupNeeded := Headroom() >= frameSize;
      } else {
        wakeupNeeded := false;
      }
    }

    /** Hands over up to `capacity` bytes of the current frame. In packet mode the frame is then done, in
        bytestream mode once all of it was handed over. A wakeup is asked for exactly when there is still
        a whole frame in the buffer. */
    method Consume(bytestream: bool, capacity: nat) returns (out: seq<byte>)
      requires Valid() && Whole(Buffered())
      modifies this`frameOffset, this`frameSize, this`consumed, this`wakeupNeeded, this`frames, this`handed, this`lossless
      ensures Valid() && received == old(received)
      ensures out == if capacity < |old(Unconsumed())| then old(Unconsumed())[..capacity] else old(Unconsumed())
      ensures wakeupNeeded <==> Whole(Buffered())
      ensures if bytestream && |out| < |old(Unconsumed())|
              then frames == old(frames) && handed == old(handed) && Buffered() == old(Buffered())
                   && consumed == old(consumed) + |out|
              else frames == old(frames) + [old(Payload(Buffered()))] && consumed == 0
                   && Buffered() == old(AfterFrame(Buffered()))
                   && handed == old(handed) + [old(Payload(Buffered())[..consumed]) + out]
      ensures bytestream && old(lossless) ==> lossless && Delivered() == old(Delivered()) + out
    {
      hide Enframe, Length16;
      ghost var p := Payload(Buffered());
      out := CopyOut(capacity);
      assert p[..consumed] + out == p[..consumed + |out|];
      if |out| == frameSize - HEADER - consumed || !bytestream {
        ConcatAppend(frames, p);
        ghost var seen := Concat(frames) + p[..consumed];
        assert |out| == |p| - consumed ==> seen + out == Concat(frames) + p;
        Retire(consumed + |out|);
      } else {
        assert Concat(frames) + p[..consumed] + out == Concat(frames) + p[..consumed + |out|];
        consumed := consumed + |out|;
        wakeupNeeded := true;
      }
    }

    method CopyOut(capacity: nat) returns (out: seq<byte>)
      requires Valid() && Whole(Buffered())
      ensures out == if capacity < |Unconsumed()| then Unconsumed()[..capacity] else Unconsumed()
    {
      hide Enframe, Length16;
      var unconsumed := frameSize - HEADER - consumed;
      var copied := if capacity < unconsumed then capacity else unconsumed;
      var from := frameOffset + frameSize - unconsumed;
      out := buffer[from..from + copied];
      Window(buffer, frameOffset, bufferOffset, HEADER, frameSize);
      Window(buffer, frameOffset + HEADER, frameOffset + frameSize, consumed, consumed + copied);
    }

    /** Drops the current frame: it was handled out of band. */
    method Discard()
      requires Valid() && Whole(Buffered())
      modifies this`frameOffset, this`frameSize, this`consumed, this`wakeupNeeded, this`frames, this`handed, this`lossless
      ensures Valid() && received == old(received) && consumed == 0
      ensures frames == old(frames) + [old(Payload(Buffered()))]
      ensures handed == old(handed) + [old(Payload(Buffered())[..consumed])]
      ensures Buffered() == old(AfterFrame(Buffered()))
      ensures wakeupNeeded <==> Whole(Buffered())
    {
      Retire(consumed);
    }

    /** Serves a client read from the buffer alone, if a whole frame is there. */
    method TryConsume(bytestream: bool, capacity: nat) returns (done: bool, out: seq<byte>)
      requires Valid()
      modifies this`frameOffset, this`frameSize, this`consumed, this`wakeupNeeded, this`frames, this`handed, this`lossless
      ensures Valid() && received == old(received)
      ensures done <==> old(Whole(Buffered()))
      ensures done ==>
                && out == (if capacity < |old(Unconsumed())| then old(Unconsumed())[..capacity] else old(Unconsumed()))
                && (wakeupNeeded <==> Whole(Buffered()))
      ensures !done ==> out == [] && unchanged(this)
    {
      if frameSize == 0 {
        return false, [];
      }
      if Headroom() < frameSize {
        return false, [];
      }
      out := Consume(bytestream, capacity);
      done := true;
    }
  }

  // The payloads the client sees: a frame without payload counts as handled out of band.
  function NonEmpty(frames: seq<seq<byte>>): (r: seq<seq<byte>>)
    ensures forall p :: p in r <==> p in frames && p != []
  {
    if frames == [] then []
    else if frames[0] == [] then NonEmpty(frames[1..])
    else [frames[0]] + NonEmpty(frames[1..])
  }

  lemma {:induction false} NonEmptyAppend(frames: seq<seq<byte>>, p: seq<byte>)
    ensures NonEmpty(frames + [p]) == NonEmpty(frames) + (if p == [] then [] else [p])
  {
    if frames == [] {
      assert [p][1..] == [];
    } else {
      assert (frames + [p])[1..] == frames[1..] + [p];
      NonEmptyAppend(frames[1..], p);
    }
  }

  /** The receive loop of a component on one socket, in packet mode: however the bytes are cut into
      chunks, the packets are the non-empty payloads of the plain deframing of the stream. */
  method ReceiveAll(chunks: seq<seq<byte>>) returns (packets: seq<seq<byte>>)
    ensures packets == NonEmpty(Deframe(Concat(chunks)))
  {
    hide Deframe, Enframe, Concat, Length16;
    var r := new Receiver();
    packets := [];
    ConcatNone();
    for i := 0 to |chunks|
      invariant r.Valid() && fresh(r) && fresh(r.buffer) && r.consumed == 0 && packets == NonEmpty(r.frames)
      invariant r.received == Concat(chunks[..i]) && !Whole(r.Buffered())
    {
      packets := ReceiveChunk(r, chunks[i], packets);
      ConcatAppend(chunks[..i], chunks[i]);
      assert chunks[..i] + [chunks[i]] == chunks[..i + 1];
    }
    assert chunks[..|chunks|] == chunks;
    NextFrame(r.frames, r.Buffered());
  }

  // Reads until the socket is empty and no whole frame is left.
  method ReceiveChunk(r: Receiver, chunk: seq<byte>, before: seq<seq<byte>>) returns (packets: seq<seq<byte>>)
    requires r.Valid() && r.consumed == 0 && before == NonEmpty(r.frames)
    modifies r, r.buffer
    ensures r.Valid() && r.buffer == old(r.buffer) && r.consumed == 0 && packets == NonEmpty(r.frames)
    ensures r.received == old(r.received) + chunk && !Whole(r.Buffered())
  {
    hide Deframe, Enframe, Length16, NonEmpty;
    packets := before;
    var rest, more := chunk, true;
    while more
      invariant r.Valid() && r.buffer == old(r.buffer) && r.consumed == 0 && packets == NonEmpty(r.frames)
      invariant r.received + rest == old(r.received) + chunk
      invariant !more ==> rest == [] && !Whole(r.Buffered())
      decreases |rest|, |r.Buffered()|, more
    {
      ghost var was, left := r.received, rest;
      var o, n := r.Receive(if rest == [] then Quiet(false) else Readable(rest, false));
      rest := rest[n..];
      assert was + left == (was + left[..n]) + rest;
      if o.Exposed? {
        NonEmptyAppend(r.frames, Payload(r.Buffered()));
        packets := TakeFrame(r, o.payload, packets);
      } else if rest == [] {
        more := false;
      }
    }
  }

  // A frame goes to the client in full; one without payload goes nowhere.
  method TakeFrame(r: Receiver, payload: seq<byte>, before: seq<seq<byte>>) returns (packets: seq<seq<byte>>)
    requires r.Valid() && r.consumed == 0 && Whole(r.Buffered()) && payload == Payload(r.Buffered())
    modifies r`frameOffset, r`frameSize, r`consumed, r`wakeupNeeded, r`frames, r`handed, r`lossless
    ensures r.Valid() && r.consumed == 0 && r.received == old(r.received)
    ensures r.frames == old(r.frames) + [payload] && r.Buffered() == old(AfterFrame(r.Buffered()))
    ensures packets == before + if payload == [] then [] else [payload]
  {
    hide Deframe, Enframe, Length16, PayloadLength, History;
    packets := before;
    if payload == [] {
      r.Discard();
    } else {
      var p := r.Consume(false, MAX_PAYLOAD);
      packets := packets + [p];
    }
  }

  lemma ConcatNone()
    ensures Concat([]) == []
  {
  }
}
