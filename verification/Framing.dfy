/** RFC 4571 framing of a byte stream: a frame is a 16-bit big-endian length and that many bytes. */
module Framing {

  type byte = n: int | 0 <= n < 256

  const HEADER: nat := 2
  const MAX_PAYLOAD: nat := 0xffff

  function Header(n: nat): (h: seq<byte>)
    requires n <= MAX_PAYLOAD
    ensures |h| == HEADER && PayloadLength(h) == n
  {
    [n / 256, n % 256]
  }

  // Network byte order.
  function Length16(high: byte, low: byte): (n: nat)
    ensures n <= MAX_PAYLOAD
  {
    (high as int) * 256 + low as int
  }

  // The length field at the head of `s`.
  function PayloadLength(s: seq<byte>): (n: nat)
    requires |s| >= HEADER
    ensures n <= MAX_PAYLOAD
  {
    Length16(s[0], s[1])
  }

  // Does `s` begin with a whole frame?
  predicate Whole(s: seq<byte>) {
    |s| >= HEADER && |s| >= HEADER + PayloadLength(s)
  }

  function Payload(s: seq<byte>): seq<byte>
    requires Whole(s)
  {
    s[HEADER..HEADER + PayloadLength(s)]
  }

  function AfterFrame(s: seq<byte>): seq<byte>
    requires Whole(s)
  {
    s[HEADER + PayloadLength(s)..]
  }

  /** The payloads of the whole frames of a stream, in order. */
  function Deframe(s: seq<byte>): seq<seq<byte>>
    decreases |s|
  {
    if Whole(s) then [Payload(s)] + Deframe(AfterFrame(s)) else []
  }

  predicate Framable(frames: seq<seq<byte>>) {
    forall i :: 0 <= i < |frames| ==> |frames[i]| <= MAX_PAYLOAD
  }

  function Enframe(frames: seq<seq<byte>>): seq<byte>
    requires Framable(frames)
  {
    if frames == [] then [] else Header(|frames[0]|) + frames[0] + Enframe(frames[1..])
  }

  function Concat(parts: seq<seq<byte>>): seq<byte> {
    if parts == [] then [] else parts[0] + Concat(parts[1..])
  }

  // ----- framing and deframing

  lemma HeadFrame(p: seq<byte>, rest: seq<byte>)
    requires |p| <= MAX_PAYLOAD
    ensures var s := Header(|p|) + p + rest; Whole(s) && Payload(s) == p && AfterFrame(s) == rest
  {
    var s := Header(|p|) + p + rest;
    assert s[0] == Header(|p|)[0] && s[1] == Header(|p|)[1];
    assert s[HEADER..HEADER + |p|] == p && s[HEADER + |p|..] == rest;
  }

  lemma DeframeHead(s: seq<byte>)
    requires Whole(s)
    ensures Deframe(s) == [Payload(s)] + Deframe(AfterFrame(s))
  {
  }

  /** Whatever follows, the frames that were put in come out first and in order. */
  lemma {:induction false} DeframeEnframe(frames: seq<seq<byte>>, rest: seq<byte>)
    requires Framable(frames)
    ensures Deframe(Enframe(frames) + rest) == frames + Deframe(rest)
    decreases |frames|
  {
    hide Whole, Payload, AfterFrame, Header, Deframe;
    if frames == [] {
      assert Enframe(frames) + rest == rest;
      assert frames + Deframe(rest) == Deframe(rest);
    } else {
      var p, tail := frames[0], Enframe(frames[1..]) + rest;
      assert Enframe(frames) + rest == Header(|p|) + p + tail;
      HeadFrame(p, tail);
      DeframeHead(Enframe(frames) + rest);
      DeframeEnframe(frames[1..], rest);
      assert [p] + (frames[1..] + Deframe(rest)) == frames + Deframe(rest);
    }
  }

  lemma {:induction false} EnframeAppend(frames: seq<seq<byte>>, p: seq<byte>)
    requires Framable(frames) && |p| <= MAX_PAYLOAD
    ensures Enframe(frames + [p]) == Enframe(frames) + (Header(|p|) + p)
    decreases |frames|
  {
    if frames == [] {
      assert frames + [p] == [p] && [p][1..] == [];
      assert Enframe([p]) == Header(|p|) + p + [];
    } else {
      assert (frames + [p])[1..] == frames[1..] + [p];
      EnframeAppend(frames[1..], p);
    }
  }

  // The next frame after those that were put in, if it is there.
  lemma NextFrame(frames: seq<seq<byte>>, rest: seq<byte>)
    requires Framable(frames)
    ensures Deframe(Enframe(frames) + rest) ==
            if Whole(rest) then frames + [Payload(rest)] + Deframe(AfterFrame(rest)) else frames
  {
    hide Enframe;
    DeframeEnframe(frames, rest);
    if Whole(rest) {
      assert frames + ([Payload(rest)] + Deframe(AfterFrame(rest))) == frames + [Payload(rest)] + Deframe(AfterFrame(rest));
    } else {
      assert frames + [] == frames;
    }
  }

  // A whole frame at the head of `s` is its header, its payload and the rest.
  lemma SplitHead(s: seq<byte>)
    requires Whole(s)
    ensures s == Header(|Payload(s)|) + Payload(s) + AfterFrame(s)
  {
    var n := PayloadLength(s);
    assert Header(n) == s[..HEADER];
    assert s == s[..HEADER] + s[HEADER..HEADER + n] + s[HEADER + n..];
  }

  lemma {:induction false} ConcatAppend(parts: seq<seq<byte>>, p: seq<byte>)
    ensures Concat(parts + [p]) == Concat(parts) + p
  {
    if parts == [] {
      assert parts + [p] == [p] && [p][1..] == [];
    } else {
      assert (parts + [p])[1..] == parts[1..] + [p];
      ConcatAppend(parts[1..], p);
    }
  }

  lemma {:induction false} ConcatMore(parts: seq<seq<byte>>, more: seq<seq<byte>>)
    ensures Concat(parts) <= Concat(parts + more)
  {
    if parts != [] {
      assert (parts + more)[1..] == parts[1..] + more;
      ConcatMore(parts[1..], more);
    }
  }
}
