/** Scattering received bytes over the buffers of the client's messages, with the iterator that remembers
where the next byte goes. */
module InputMessages {
  import opened Framing

  // ----- buffers as values

  function Capacity(bufs: seq<seq<byte>>): nat {
    |Concat(bufs)|
  }

  // The number of bytes before offset `o` of buffer `b`.
  function Place(bufs: seq<seq<byte>>, b: nat, o: nat): nat
    requires b <= |bufs|
  {
    |Concat(bufs[..b])| + o
  }

  // Overwrites the bytes of `s` from `at` on with `data`.
  function Overwrite(s: seq<byte>, at: nat, data: seq<byte>): seq<byte>
    requires at + |data| <= |s|
  {
    s[..at] + data + s[at + |data|..]
  }

  lemma {:induction false} ConcatSplit(parts: seq<seq<byte>>, k: nat)
    requires k <= |parts|
    ensures Concat(parts) == Concat(parts[..k]) + Concat(parts[k..])
    decreases k
  {
    if k > 0 {
      ConcatSplit(parts[1..], k - 1);
      assert parts[..k][1..] == parts[1..][..k - 1];
      assert parts[1..][k - 1..] == parts[k..];
    } else {
      assert parts[..0] == [] && parts[0..] == parts;
    }
  }

  lemma ConcatAt(parts: seq<seq<byte>>, k: nat)
    requires k < |parts|
    ensures Concat(parts) == Concat(parts[..k]) + parts[k] + Concat(parts[k + 1..])
  {
    ConcatSplit(parts, k);
    assert parts[k..][0] == parts[k] && parts[k..][1..] == parts[k + 1..];
  }

  // Writing into one buffer is writing into the concatenation.
  lemma WriteOne(bufs: seq<seq<byte>>, b: nat, o: nat, data: seq<byte>)
    requires b < |bufs| && o + |data| <= |bufs[b]|
    ensures Place(bufs, b, o) + |data| <= Capacity(bufs)
    ensures Concat(bufs[b := Overwrite(bufs[b], o, data)]) == Overwrite(Concat(bufs), Place(bufs, b, o), data)
  {
    hide Concat;
    var bufs' := bufs[b := Overwrite(bufs[b], o, data)];
    ConcatAt(bufs, b);
    ConcatAt(bufs', b);
    assert bufs'[..b] == bufs[..b] && bufs'[b + 1..] == bufs[b + 1..];
    OverwriteMiddle(Concat(bufs[..b]), bufs[b], Concat(bufs[b + 1..]), o, data);
  }

  lemma OverwriteMiddle(pre: seq<byte>, mid: seq<byte>, post: seq<byte>, o: nat, data: seq<byte>)
    requires o + |data| <= |mid|
    ensures pre + Overwrite(mid, o, data) + post == Overwrite(pre + mid + post, |pre| + o, data)
  {
    var s := pre + mid + post;
    assert s[..|pre| + o] == pre + mid[..o];
    assert s[|pre| + o + |data|..] == mid[o + |data|..] + post;
  }

  lemma OverwriteTwice(s: seq<byte>, at: nat, a: seq<byte>, b: seq<byte>)
    requires at + |a| + |b| <= |s|
    ensures Overwrite(Overwrite(s, at, a), at + |a|, b) == Overwrite(s, at, a + b)
  {
  }

  lemma PlaceNext(bufs: seq<seq<byte>>, b: nat)
    requires b < |bufs|
    ensures Place(bufs, b + 1, 0) == Place(bufs, b, |bufs[b]|) <= Capacity(bufs)
  {
    hide Concat;
    ConcatAt(bufs, b);
    ConcatAppend(bufs[..b], bufs[b]);
    assert bufs[..b] + [bufs[b]] == bufs[..b + 1];
  }

  // ----- messages

  class Message {
    const buffers: seq<array<byte>>
    var length: nat

    constructor (buffers: seq<array<byte>>)
      ensures this.buffers == buffers && length == 0
    {
      this.buffers := buffers;
      length := 0;
    }

    ghost predicate Valid() {
      forall i, j :: 0 <= i < j < |buffers| ==> buffers[i] != buffers[j]
    }

    ghost function Contents(): (bufs: seq<seq<byte>>)
      reads buffers
      ensures |bufs| == |buffers|
    {
      seq(|buffers|, i requires 0 <= i < |buffers| reads buffers => buffers[i][..])
    }

    // memcpy into one buffer.
    method CopyAt(b: nat, o: nat, data: seq<byte>)
      requires Valid() && b < |buffers| && o + |data| <= buffers[b].Length
      modifies buffers[b]
      ensures Contents() == old(Contents())[b := Contents()[b]]
      ensures Place(old(Contents()), b, o) + |data| <= old(Capacity(Contents()))
      ensures Concat(Contents()) == Overwrite(old(Concat(Contents())), Place(old(Contents()), b, o), data)
    {
      hide Concat;
      ghost var bufs := Contents();
      var v := buffers[b];
      forall k | 0 <= k < |data| {
        v[o + k] := data[k];
      }
      assert v[..] == Overwrite(bufs[b], o, data);
      forall i | 0 <= i < |buffers| && i != b
        ensures Contents()[i] == bufs[i]
      {
        assert buffers[i] != buffers[b];
      }
      assert Contents() == bufs[b := v[..]];
      WriteOne(bufs, b, o, data);
    }

    // Where an iterator inside this message may stand.
    ghost predicate Inside(b: nat, o: nat) {
      if b < |buffers| then o <= buffers[b].Length else b == |buffers| && o == 0
    }

    // The number of bytes before the iterator.
    ghost function Cursor(b: nat, o: nat): nat
      requires Inside(b, o)
      reads buffers
    {
      Place(Contents(), b, o)
    }

    lemma CursorBound(b: nat, o: nat)
      requires Inside(b, o)
      ensures Cursor(b, o) <= Capacity(Contents())
      ensures b == |buffers| ==> Cursor(b, o) == Capacity(Contents())
    {
      hide Concat;
      var bufs := Contents();
      if b < |bufs| {
        PlaceNext(bufs, b);
      } else {
        assert bufs[..|bufs|] == bufs;
      }
    }

    method CapacityFrom(b: nat, o: nat) returns (total: nat)
      requires Inside(b, o)
      ensures total == Capacity(Contents()) - Cursor(b, o)
    {
      hide Concat;
      ghost var bufs := Contents();
      var i, sum := b, 0;
      while i < |buffers|
        invariant b <= i <= |buffers|
        invariant Place(bufs, i, 0) == Place(bufs, b, 0) + sum
      {
        PlaceNext(bufs, i);
        sum := sum + buffers[i].Length;
        i := i + 1;
      }
      CursorBound(b, o);
      CursorBound(|buffers|, 0);
      total := sum - o;
    }

    // Copies into buffer `b`, and moves on to the next one if there is more data.
    method CopyStep(b: nat, o: nat, data: seq<byte>) returns (len: nat, b': nat, o': nat)
      requires Valid() && Inside(b, o) && b < |buffers|
      modifies buffers[b]
      ensures len <= |data| && Inside(b', o') && old(Cursor(b, o)) + len <= old(Capacity(Contents()))
      ensures Concat(Contents()) == Overwrite(old(Concat(Contents())), old(Cursor(b, o)), data[..len])
      ensures Cursor(b', o') == old(Cursor(b, o)) + len
      ensures b' == if len == |data| then b else b + 1
    {
      hide Concat, Overwrite;
      len := if |data| < buffers[b].Length - o then |data| else buffers[b].Length - o;
      ghost var bufs := Contents();
      CopyAt(b, o, data[..len]);
      PlaceStays(bufs, Contents(), b);
      if len < |data| {
        PlaceNext(Contents(), b);
        b', o' := b + 1, 0;
      } else {
        b', o' := b, o + len;
      }
    }

    // Copies buffer after buffer until the data or the message ends.
    method CopyInto(b0: nat, o0: nat, data: seq<byte>) returns (n: nat, b: nat, o: nat)
      requires Valid() && Inside(b0, o0)
      modifies this, buffers
      ensures Inside(b, o)
      ensures var cap, at := old(Capacity(Contents())), old(Cursor(b0, o0));
              && at <= cap && n == (if |data| <= cap - at then |data| else cap - at)
              && Concat(Contents()) == Overwrite(old(Concat(Contents())), at, data[..n])
              && Cursor(b, o) == at + n
      ensures length == old(length) + n
    {
      hide Concat, Overwrite;
      ghost var flat, at := Concat(Contents()), Cursor(b0, o0);
      n, b, o := 0, b0, o0;
      CursorBound(b, o);
      OverwriteNone(flat, at);
      assert data[..0] == [];
      var more := true;
      while more && b < |buffers|
        invariant Inside(b, o) && n <= |data| && at + n <= |flat|
        invariant Concat(Contents()) == Overwrite(flat, at, data[..n])
        invariant |Concat(Contents())| == |flat| && Cursor(b, o) == at + n
        invariant length == old(length) + n
        invariant !more ==> n == |data|
        decreases |buffers| - b, more
      {
        var len;
        len, b, o := CopyStep(b, o, data[n..]);
        OverwriteTwice(flat, at, data[..n], data[n..][..len]);
        assert data[..n] + data[n..][..len] == data[..n + len];
        n, length := n + len, length + len;
        OverwriteSize(flat, at, data[..n]);
        more := n < |data|;
      }
      CursorBound(b, o);
    }
  }

  ghost predicate AllValid(messages: seq<Message>) {
    forall i :: 0 <= i < |messages| ==> messages[i].Valid()
  }

  lemma ValidAt(messages: seq<Message>, i: nat)
    requires AllValid(messages) && i < |messages|
    ensures messages[i].Valid()
  {
  }

  /** The messages of one read call and the iterator over them. */
  class Target {
    const messages: seq<Message>
    var message: nat
    var buffer: nat
    var offset: nat

    constructor (messages: seq<Message>)
      requires AllValid(messages)
      ensures this.messages == messages && message == 0 && buffer == 0 && offset == 0
      ensures Valid()
    {
      this.messages := messages;
      message, buffer, offset := 0, 0, 0;
    }

    ghost predicate Valid()
      reads this
    {
      && AllValid(messages)
      && message <= |messages|
      && if message < |messages| then messages[message].Inside(buffer, offset) else buffer == 0 && offset == 0
    }

    // The place of the next byte in the current message.
    ghost function Cursor(): nat
      requires Valid() && message < |messages|
      reads this, messages[message].buffers
    {
      messages[message].Cursor(buffer, offset)
    }

    /** One received buffer: as much of it as fits goes, contiguously, to the cursor of the current message.
        The iterator moves to the next message in packet mode, or when the message is full. */
    method Append(bytestream: bool, data: seq<byte>) returns (n: nat)
      requires Valid() && message < |messages|
      modifies this`message, this`buffer, this`offset, messages[message], messages[message].buffers
      ensures Valid()
      ensures var m, cap, at := messages[old(message)], old(Capacity(messages[message].Contents())), old(Cursor());
              && at <= cap && n == (if |data| <= cap - at then |data| else cap - at)
              && Concat(m.Contents()) == Overwrite(old(Concat(messages[message].Contents())), at, data[..n])
              && m.length == (if old(buffer) == 0 && old(offset) == 0 then 0 else old(messages[message].length)) + n
              && if !bytestream || at + n == cap
                 then message == old(message) + 1 && buffer == 0 && offset == 0
                 else message == old(message) && Cursor() == at + n
    {
      hide Concat, Overwrite, AllValid, Place, Message.Contents;
      ValidAt(messages, message);
      var m := messages[message];
      ghost var flat, at := Concat(m.Contents()), Cursor();
      if buffer == 0 && offset == 0 {
        m.length := 0;
      }
      n, buffer, offset := m.CopyInto(buffer, offset, data);
      OverwriteSize(flat, at, data[..n]);
      var left := 0;
      if bytestream {
        left := m.CapacityFrom(buffer, offset);
      }
      if !bytestream || left == 0 {
        message, buffer, offset := message + 1, 0, 0;
      }
    }
  }

  lemma OverwriteNone(s: seq<byte>, at: nat)
    requires at <= |s|
    ensures Overwrite(s, at, []) == s
  {
  }

  lemma OverwriteSize(s: seq<byte>, at: nat, data: seq<byte>)
    requires at + |data| <= |s|
    ensures |Overwrite(s, at, data)| == |s|
  {
  }

  lemma PlaceStays(bufs: seq<seq<byte>>, bufs': seq<seq<byte>>, b: nat)
    requires b < |bufs| == |bufs'| && bufs' == bufs[b := bufs'[b]]
    ensures bufs'[..b] == bufs[..b]
  {
  }
}
