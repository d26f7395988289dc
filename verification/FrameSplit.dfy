/** Sending a message over an ICE-TCP socket: it is split into frames of at most 0xF800 bytes.

For every frame after the first, the source looks up the buffer the frame starts in, but takes the size of
the first piece from the whole buffer, not from what is left of it behind the start. A piece that would
reach beyond its buffer is an over-read. */
module FrameSplit {
  import opened Framing

  const MAX_PACKET: nat := 0xF800

  // The offset in the message at which buffer `j` starts.
  function StartOf(bufs: seq<seq<byte>>, j: nat): nat
    requires j <= |bufs|
  {
    |Concat(bufs[..j])|
  }

  function EndOf(bufs: seq<seq<byte>>, j: nat): nat
    requires j < |bufs|
  {
    StartOf(bufs, j) + |bufs[j]|
  }

  /** The messages the splitter sends correctly: those that fit one frame, and those whose bytes from
      before offset 0xF800 on are all in one buffer. */
  predicate Splittable(bufs: seq<seq<byte>>) {
    || |Concat(bufs)| <= MAX_PACKET
    || exists j :: 0 <= j < |bufs| && StartOf(bufs, j) < MAX_PACKET && EndOf(bufs, j) == |Concat(bufs)|
  }

  predicate Packets(frames: seq<seq<byte>>) {
    forall i :: 0 <= i < |frames| ==> 0 < |frames[i]| <= MAX_PACKET
  }

  // ----- where buffers start

  lemma StartNext(bufs: seq<seq<byte>>, j: nat)
    requires j < |bufs|
    ensures StartOf(bufs, j + 1) == EndOf(bufs, j)
  {
    hide Concat;
    ConcatAppend(bufs[..j], bufs[j]);
    assert bufs[..j] + [bufs[j]] == bufs[..j + 1];
  }

  lemma {:induction false} StartLater(bufs: seq<seq<byte>>, i: nat, j: nat)
    requires i <= j <= |bufs|
    ensures StartOf(bufs, i) <= StartOf(bufs, j) <= |Concat(bufs)|
    decreases |bufs| - i
  {
    hide Concat;
    StartEnd(bufs);
    if i < j {
      StartNext(bufs, i);
      StartLater(bufs, i + 1, j);
    } else if j < |bufs| {
      StartNext(bufs, j);
      StartLater(bufs, j + 1, |bufs|);
    }
  }

  lemma StartEnd(bufs: seq<seq<byte>>)
    ensures StartOf(bufs, |bufs|) == |Concat(bufs)| && StartOf(bufs, 0) == 0
  {
    assert bufs[..|bufs|] == bufs;
  }

  // A piece of a buffer is a piece of the message.
  lemma {:induction false} Piece(bufs: seq<seq<byte>>, j: nat, o: nat, n: nat)
    requires j < |bufs| && o + n <= |bufs[j]|
    ensures StartOf(bufs, j) + o + n <= |Concat(bufs)|
    ensures bufs[j][o..o + n] == Concat(bufs)[StartOf(bufs, j) + o..StartOf(bufs, j) + o + n]
    decreases j
  {
    if j == 0 {
      assert bufs[..0] == [];
      assert Concat(bufs)[..|bufs[0]|] == bufs[0];
    } else {
      Piece(bufs[1..], j - 1, o, n);
      assert bufs[..j][1..] == bufs[1..][..j - 1];
      var at := StartOf(bufs[1..], j - 1) + o;
      assert Concat(bufs)[|bufs[0]| + at..|bufs[0]| + at + n] == Concat(bufs[1..])[at..at + n];
    }
  }

  // The buffer in which the offset `at` is looked up: the first that reaches it.
  predicate Reaches(bufs: seq<seq<byte>>, j: nat, at: nat) {
    j < |bufs| && StartOf(bufs, j) < at <= EndOf(bufs, j)
  }

  lemma ReachesOnce(bufs: seq<seq<byte>>, i: nat, j: nat, at: nat)
    requires Reaches(bufs, i, at) && Reaches(bufs, j, at)
    ensures i == j
  {
    hide Concat;
    StartNext(bufs, i);
    StartNext(bufs, j);
    if i < j {
      StartLater(bufs, i + 1, j);
    } else if j < i {
      StartLater(bufs, j + 1, i);
    }
  }

  // ----- the splitter

  method FindStart(bufs: seq<seq<byte>>, offset: nat) returns (j: nat, inBuffer: nat)
    requires offset < |Concat(bufs)|
    ensures j < |bufs| && StartOf(bufs, j) + inBuffer == offset && inBuffer <= |bufs[j]|
    ensures if offset == 0 then j == 0 else Reaches(bufs, j, offset)
  {
    hide Concat;
    StartEnd(bufs);
    var current := 0;
    j := 0;
    while j < |bufs| && |bufs[j]| < offset - current
      invariant j <= |bufs| && current == StartOf(bufs, j) <= offset
      invariant offset > 0 ==> current < offset
      invariant offset == 0 ==> j == 0
    {
      StartNext(bufs, j);
      current := current + |bufs[j]|;
      j := j + 1;
    }
    inBuffer := offset - current;
  }

  // One frame: pieces from the start buffer on until the packet is complete.
  method FillPacket(bufs: seq<seq<byte>>, offset: nat, packetLen: nat) returns (payload: seq<byte>, overread: bool)
    requires 0 < packetLen && offset + packetLen <= |Concat(bufs)|
    ensures overread <==> offset > 0 && exists j :: Reaches(bufs, j, offset) && EndOf(bufs, j) < offset + packetLen
    ensures !overread ==> payload == Concat(bufs)[offset..offset + packetLen]
  {
    hide Concat;
    ghost var flat := Concat(bufs);
    var j, inBuffer := FindStart(bufs, offset);
    ghost var start := j;
    payload, overread := [], false;
    var left: nat := packetLen;
    assert flat[offset..offset] == [];
    while j < |bufs|
      invariant start <= j <= |bufs| && left <= packetLen && inBuffer <= offset
      invariant payload == flat[offset..offset + packetLen - left]
      invariant left > 0 ==> StartOf(bufs, j) + inBuffer == offset + packetLen - left
      invariant if j == start then left == packetLen && (j < |bufs| ==> inBuffer <= |bufs[j]|) else inBuffer == 0
      invariant j > start && offset > 0 ==> Reaches(bufs, start, offset) && offset + packetLen <= EndOf(bufs, start)
    {
      var size: nat := if |bufs[j]| < left then |bufs[j]| else left;
      if inBuffer + size > |bufs[j]| {
        overread := true;
        return;
      }
      if left > 0 {
        Piece(bufs, j, inBuffer, size);
        assert flat[offset..offset + packetLen - left] + flat[offset + packetLen - left..offset + packetLen - left + size] ==
               flat[offset..offset + packetLen - left + size];
        StartNext(bufs, j);
      }
      payload := payload + bufs[j][inBuffer..inBuffer + size];
      left := left - size;
      inBuffer := 0;
      j := j + 1;
    }
    StartEnd(bufs);
    if offset > 0 {
      forall i | Reaches(bufs, i, offset)
        ensures EndOf(bufs, i) >= offset + packetLen
      {
        ReachesOnce(bufs, i, start, offset);
      }
    }
  }

  method SplitMessage(bufs: seq<seq<byte>>) returns (frames: seq<seq<byte>>, overread: bool)
    ensures overread <==> !Splittable(bufs)
    ensures !overread ==> Packets(frames) && Concat(frames) == Concat(bufs)
  {
    hide Concat, Splittable, StartOf, EndOf;
    ghost var flat := Concat(bufs);
    var messageLen := TotalSize(bufs);
    var offset := 0;
    ghost var home: nat := 0;
    frames, overread := [], false;
    NoFrames(flat);
    if messageLen <= MAX_PACKET {
      SmallSplits(bufs);
    }
    while messageLen > 0
      invariant 0 <= messageLen && offset + messageLen == |flat|
      invariant Packets(frames) && Concat(frames) == flat[..offset]
      invariant offset == 0 || offset >= MAX_PACKET || messageLen == 0
      invariant offset > MAX_PACKET ==> Reaches(bufs, home, MAX_PACKET) && offset <= EndOf(bufs, home)
    {
      var packetLen := if messageLen > MAX_PACKET then MAX_PACKET else messageLen;
      messageLen := messageLen - packetLen;
      var payload, bad := FillPacket(bufs, offset, packetLen);
      if bad {
        ghost var j :| Reaches(bufs, j, offset) && EndOf(bufs, j) < offset + packetLen;
        CutShort(bufs, j, offset, packetLen);
        return [], true;
      }
      if offset > 0 {
        home := SameHome(bufs, home, offset, packetLen);
      }
      ConcatAppend(frames, payload);
      assert flat[..offset] + flat[offset..offset + packetLen] == flat[..offset + packetLen];
      frames := frames + [payload];
      offset := offset + packetLen;
    }
    assert flat[..|flat|] == flat;
    if |flat| > MAX_PACKET {
      HomeSplits(bufs, home);
    }
  }

  method TotalSize(bufs: seq<seq<byte>>) returns (n: nat)
    ensures n == |Concat(bufs)|
  {
    hide Concat;
    n := 0;
    StartEnd(bufs);
    for j := 0 to |bufs|
      invariant n == StartOf(bufs, j)
    {
      StartNext(bufs, j);
      n := n + |bufs[j]|;
    }
  }

  lemma NoFrames(flat: seq<byte>)
    ensures Concat([]) == flat[..0]
  {
  }

  lemma SmallSplits(bufs: seq<seq<byte>>)
    requires |Concat(bufs)| <= MAX_PACKET
    ensures Splittable(bufs)
  {
  }

  lemma HomeSplits(bufs: seq<seq<byte>>, home: nat)
    requires Reaches(bufs, home, MAX_PACKET) && |Concat(bufs)| <= EndOf(bufs, home)
    ensures Splittable(bufs)
  {
    hide Concat;
    StartNext(bufs, home);
    StartLater(bufs, home + 1, |bufs|);
  }

  // A later frame that leaves the buffer it starts in: no buffer holds all the bytes from before 0xF800 on.
  lemma CutShort(bufs: seq<seq<byte>>, j: nat, offset: nat, packetLen: nat)
    requires offset >= MAX_PACKET && offset + packetLen <= |Concat(bufs)| && 0 < packetLen
    requires Reaches(bufs, j, offset) && EndOf(bufs, j) < offset + packetLen
    ensures !Splittable(bufs)
  {
    hide Concat;
    if i :| 0 <= i < |bufs| && StartOf(bufs, i) < MAX_PACKET && EndOf(bufs, i) == |Concat(bufs)| {
      ReachesOnce(bufs, i, j, offset);
    }
  }

  // A later frame that stays in the buffer it starts in stays in the one that reaches 0xF800.
  lemma SameHome(bufs: seq<seq<byte>>, home: nat, offset: nat, packetLen: nat) returns (j: nat)
    requires offset >= MAX_PACKET && offset + packetLen <= |Concat(bufs)| && 0 < packetLen
    requires forall j :: Reaches(bufs, j, offset) ==> EndOf(bufs, j) >= offset + packetLen
    requires offset > MAX_PACKET ==> Reaches(bufs, home, MAX_PACKET) && offset <= EndOf(bufs, home)
    ensures Reaches(bufs, j, MAX_PACKET) && offset + packetLen <= EndOf(bufs, j)
  {
    hide Concat;
    if offset > MAX_PACKET {
      assert Reaches(bufs, home, offset);
      j := home;
    } else {
      j := FindReach(bufs, offset);
    }
  }

  lemma FindReach(bufs: seq<seq<byte>>, at: nat) returns (j: nat)
    requires 0 < at <= |Concat(bufs)|
    ensures Reaches(bufs, j, at)
  {
    hide Concat;
    StartEnd(bufs);
    j := 0;
    while j < |bufs| && EndOf(bufs, j) < at
      invariant j <= |bufs| && StartOf(bufs, j) < at
    {
      StartNext(bufs, j);
      j := j + 1;
    }
  }

  /** Where the splitter does not over-read, the receiver's deframer gives back the message. */
  lemma SplitRoundTrip(bufs: seq<seq<byte>>, frames: seq<seq<byte>>)
    requires Packets(frames) && Concat(frames) == Concat(bufs)
    ensures Framable(frames) && Deframe(Enframe(frames)) == frames
    ensures Concat(Deframe(Enframe(frames))) == Concat(bufs)
  {
    hide Concat, Enframe;
    DeframeEnframe(frames, []);
    assert Enframe(frames) + [] == Enframe(frames);
    assert frames + [] == frames;
  }

  /** A message in one buffer is always sent correctly, whatever its length. */
  lemma SingleBufferSplits(b: seq<byte>)
    ensures Splittable([b])
  {
    assert [b][..0] == [];
    StartEnd([b]);
    StartNext([b], 0);
  }

  /** Two buffers of 0xF800 and 1 bytes are not: the second frame starts at the end of the first buffer. */
  lemma TwoBuffersOverread(a: seq<byte>, b: seq<byte>)
    requires |a| == MAX_PACKET && |b| == 1
    ensures !Splittable([a, b])
  {
    var bufs := [a, b];
    StartEnd(bufs);
    StartNext(bufs, 0);
    StartNext(bufs, 1);
  }
}
