/** The retransmission timer of a STUN transaction, in milliseconds: it doubles its delay with every
retransmission, halves it for the last one, and then expires. It is what the check list relies on when it
looks at a transaction. */
module StunTimer {
  import opened Basics
  import opened ConnCheckState
  import opened ConnCheckTick

  datatype Values = Values(deadline: int, delay: nat, retransmissions: nat, max: nat)

  datatype Verdict = Expired | Again | Going

  // The retransmissions still to come.
  function Left(v: Values): nat {
    if v.retransmissions < v.max then v.max - v.retransmissions else 0
  }

  // The delay is an unsigned 32-bit number.
  function NextDelay(v: Values): nat {
    if v.retransmissions + 1 == v.max then v.delay / 2 else v.delay * 2 % TWO_32
  }

  function Fresh(now: int, initial: nat, max: nat): Values {
    Values(now + initial, initial, 1, max)
  }

  function Refreshed(v: Values, now: int): (r: (Values, Verdict)) {
    if now < v.deadline then (v, Going)
    else if v.retransmissions >= v.max then (v, Expired)
    else (Values(now + NextDelay(v), NextDelay(v), v.retransmissions + 1, v.max), Again)
  }

  class Timer {
    var deadline: int
    var delay: nat
    var retransmissions: nat
    var max: nat

    function Abs(): Values
      reads this
    {
      Values(deadline, delay, retransmissions, max)
    }

    constructor (now: int, initial: nat, maxRetransmissions: nat)
      ensures Abs() == Fresh(now, initial, maxRetransmissions)
    {
      retransmissions, delay, max, deadline := 1, initial, maxRetransmissions, now + initial;
    }

    function Remainder(now: int): (r: nat)
      reads this
      ensures r == 0 <==> now >= deadline
    {
      if now >= deadline then 0 else deadline - now
    }

    /** Nothing happens before the deadline; then a retransmission is used up, or none is left. */
    method Refresh(now: int) returns (verdict: Verdict)
      modifies this
      ensures (Abs(), verdict) == Refreshed(old(Abs()), now)
      ensures verdict.Going? <==> now < old(deadline)
      ensures verdict.Expired? <==> now >= old(deadline) && Left(old(Abs())) == 0
      ensures verdict.Again? ==> Left(Abs()) == Left(old(Abs())) - 1 && deadline == now + delay
      ensures !verdict.Again? ==> Abs() == old(Abs())
    {
      if Remainder(now) > 0 {
        return Going;
      }
      if retransmissions >= max {
        return Expired;
      }
      if retransmissions == max - 1 {
        delay := delay / 2;
      } else {
        delay := delay * 2 % TWO_32;
      }
      deadline := now + delay;
      retransmissions := retransmissions + 1;
      verdict := Again;
    }
  }

  // ----- a whole life

  function After(v: Values, times: seq<int>): Values
    decreases |times|
  {
    if times == [] then v else After(Refreshed(v, times[0]).0, times[1..])
  }

  // How often the request is sent again.
  function Resent(v: Values, times: seq<int>): nat
    decreases |times|
  {
    if times == [] then 0
    else (if Refreshed(v, times[0]).1.Again? then 1 else 0) + Resent(Refreshed(v, times[0]).0, times[1..])
  }

  /** However often and whenever it is asked, the timer allows no more retransmissions than it was started
      with, and counts each one. */
  lemma {:induction false} RetransmissionsBounded(v: Values, times: seq<int>)
    ensures Left(After(v, times)) + Resent(v, times) == Left(v)
    ensures After(v, times).max == v.max
    decreases |times|
  {
    if times != [] {
      RetransmissionsBounded(Refreshed(v, times[0]).0, times[1..]);
    }
  }

  function Power(k: nat): nat {
    if k == 0 then 1 else 2 * Power(k - 1)
  }

  // Doubled `k` times, in 32 bits.
  function Doubled(initial: nat, k: nat): nat {
    if k == 0 then initial else Doubled(initial, k - 1) * 2 % TWO_32
  }

  lemma {:induction false} DoubledFits(initial: nat, k: nat)
    requires initial * Power(k) < TWO_32
    ensures Doubled(initial, k) == initial * Power(k)
  {
    if k > 0 {
      assert initial * Power(k) == initial * Power(k - 1) + initial * Power(k - 1);
      DoubledFits(initial, k - 1);
    }
  }

  /** The schedule: after its k-th retransmission a timer waits 2^k times the initial delay, while that fits
      32 bits; only the last one waits half of the delay before it. */
  lemma {:induction false} DelayDoubles(v: Values, initial: nat, times: seq<int>)
    requires 1 <= v.retransmissions < v.max && v.delay == Doubled(initial, v.retransmissions - 1)
    ensures var w := After(v, times);
            && 1 <= w.retransmissions <= v.max
            && w.delay == if w.retransmissions < v.max then Doubled(initial, w.retransmissions - 1)
                          else Doubled(initial, v.max - 2) / 2
    ensures forall k: nat :: initial * Power(k) < TWO_32 ==> Doubled(initial, k) == initial * Power(k)
    decreases |times|
  {
    forall k: nat | initial * Power(k) < TWO_32
      ensures Doubled(initial, k) == initial * Power(k)
    {
      DoubledFits(initial, k);
    }
    if times != [] {
      var w := Refreshed(v, times[0]).0;
      if w.retransmissions < v.max {
        DelayDoubles(w, initial, times[1..]);
      } else {
        Exhausted(w, times[1..]);
      }
    }
  }

  lemma {:induction false} Exhausted(v: Values, times: seq<int>)
    requires v.retransmissions >= v.max
    ensures After(v, times) == v && Resent(v, times) == 0
    decreases |times|
  {
    if times != [] {
      Exhausted(v, times[1..]);
    }
  }

  /** The tick's view of a transaction is this timer. */
  lemma TickSeesTimer(x: Stun, t: TickInput, v: Values)
    requires x.deadline == v.deadline && x.left == Left(v) && (Left(v) > 0 ==> t.delay == NextDelay(v))
    ensures var (w, verdict) := Refreshed(v, t.now);
            match Refresh(x, t)
            case Timeout => verdict.Expired?
            case Retransmit(y) => verdict.Again? && y.deadline == y.nextTick == w.deadline && y.left == Left(w)
            case Running(y) => verdict.Going? && y.deadline == y.nextTick == w.deadline && y.left == Left(w)
  {
  }
}
