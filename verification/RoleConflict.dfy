/** Two agents repair a conflict of roles over a network that loses, duplicates, delays and reorders.

Every message ever sent stays on the wire and may be delivered at any time, any number of times, or never.
The comparison of tie-breakers is that of the STUN usage, which follows section 7.3.1.1 of RFC 8445; the
reaction to a 487 error is that of the reply handler, which takes the role opposite to the one the answered
request claimed. */
module RoleConflict {
  datatype Side = Left | Right

  function Other(x: Side): Side {
    match x
    case Left => Right
    case Right => Left
  }

  /** A request claims the role its sender had; an error answers a request of `to` that claimed `claimed`. */
  datatype Message =
    | Request(from: Side, controlling: bool, tie: nat)
    | ConflictError(to: Side, claimed: bool)

  datatype Peer = Peer(controlling: bool, tie: nat)

  datatype World = World(left: Peer, right: Peer, wire: set<Message>)

  function At(w: World, x: Side): Peer {
    match x
    case Left => w.left
    case Right => w.right
  }

  function SetControlling(w: World, x: Side, control: bool): World {
    match x
    case Left => w.(left := w.left.(controlling := control))
    case Right => w.(right := w.right.(controlling := control))
  }

  // ----- one step

  /** `Delivered(m, restart)`: `restart` is false when the pair of an error is no longer retransmitted. */
  datatype Step =
    | Sends(side: Side)
    | Delivered(m: Message, restart: bool)

  // Section 7.3.1.1: the answer to a request that claims our own role.
  datatype Verdict = Accept | Switch | Refuse

  function Judge(me: Peer, claims: bool, tie: nat): Verdict {
    if me.controlling != claims then Accept
    else if me.tie >= tie then (if me.controlling then Refuse else Switch)
    else (if me.controlling then Switch else Refuse)
  }

  function Apply(w: World, step: Step): World {
    match step
    case Sends(x) => w.(wire := w.wire + {Request(x, At(w, x).controlling, At(w, x).tie)})
    case Delivered(m, restart) =>
      if m !in w.wire then w
      else
        match m
        case Request(from, claims, tie) =>
          (var me := Other(from);
           match Judge(At(w, me), claims, tie)
           case Accept => w
           case Switch => SetControlling(w, me, !claims)
           case Refuse => w.(wire := w.wire + {ConflictError(from, claims)}))
        case ConflictError(to, claimed) =>
          if restart then SetControlling(w, to, !claimed) else w
  }

  function Run(w: World, steps: seq<Step>): World
    decreases |steps|
  {
    if steps == [] then w else Run(Apply(w, steps[0]), steps[1..])
  }

  // Role changes of either agent along a run.
  function Changes(w: World, steps: seq<Step>): nat
    decreases |steps|
  {
    if steps == [] then 0
    else
      var v := Apply(w, steps[0]);
      (if v.left.controlling != w.left.controlling then 1 else 0)
      + (if v.right.controlling != w.right.controlling then 1 else 0)
      + Changes(v, steps[1..])
  }

  // ----- the invariant

  function Larger(w: World): Side {
    if w.left.tie > w.right.tie then Left else Right
  }

  predicate Resolved(w: World) {
    At(w, Larger(w)).controlling && !At(w, Other(Larger(w))).controlling
  }

  // A message on the wire that cannot lead away from `big` controlling the other side:
  // `shared` is the role both started in.
  predicate Harmless(w: World, big: Side, shared: bool, m: Message) {
    match m
    case Request(from, claims, tie) =>
      && tie == At(w, from).tie
      && (if from == big then claims || !shared else !claims || shared)
    case ConflictError(to, claimed) => claimed == shared && to == (if shared then Other(big) else big)
  }

  // Both still in the shared role, or resolved; and the wire is harmless.
  predicate Converging(w: World, shared: bool) {
    && w.left.tie != w.right.tie
    && (Resolved(w) || (w.left.controlling == shared && w.right.controlling == shared))
    && forall m :: m in w.wire ==> Harmless(w, Larger(w), shared, m)
  }

  lemma ConvergingStep(w: World, shared: bool, step: Step)
    requires Converging(w, shared)
    ensures var v := Apply(w, step);
            && Converging(v, shared) && Larger(v) == Larger(w)
            && (Resolved(w) ==> v.left.controlling == w.left.controlling && v.right.controlling == w.right.controlling)
            && (v.left.controlling == w.left.controlling || v.right.controlling == w.right.controlling)
            && (v.left.controlling != w.left.controlling || v.right.controlling != w.right.controlling ==> Resolved(v))
  {
  }

  lemma {:induction false} ConvergingRun(w: World, shared: bool, steps: seq<Step>)
    requires Converging(w, shared)
    ensures Converging(Run(w, steps), shared) && Larger(Run(w, steps)) == Larger(w)
    ensures Changes(w, steps) <= (if Resolved(w) then 0 else 1)
    ensures Resolved(Run(w, steps)) <==> Resolved(w) || Changes(w, steps) == 1
    ensures !Resolved(Run(w, steps)) ==>
            Run(w, steps).left.controlling == shared && Run(w, steps).right.controlling == shared
    decreases |steps|
  {
    if steps != [] {
      hide Converging, Apply;
      ConvergingStep(w, shared, steps[0]);
      ConvergingRun(Apply(w, steps[0]), shared, steps[1..]);
    }
    if !Resolved(Run(w, steps)) {
      ConvergingRoles(Run(w, steps), shared);
    }
  }

  lemma ConvergingRoles(w: World, shared: bool)
    requires Converging(w, shared)
    ensures Resolved(w) || (w.left.controlling == shared && w.right.controlling == shared)
  {
  }

  function Start(left: Peer, right: Peer): World {
    World(left, right, {})
  }

  /** Two agents that start in the same role with distinct tie-breakers: over every run at most one role
      change ever happens, and after it the larger tie-breaker controls, for good. */
  lemma SameRoleConverges(left: Peer, right: Peer, steps: seq<Step>)
    requires left.controlling == right.controlling && left.tie != right.tie
    ensures var w, v := Start(left, right), Run(Start(left, right), steps);
            && Changes(w, steps) <= 1
            && (Changes(w, steps) == 1 <==> Resolved(v))
            && (Changes(w, steps) == 0 <==> v.left.controlling == v.right.controlling == left.controlling)
  {
    ConvergingRun(Start(left, right), left.controlling, steps);
  }

  /** A role once taken is never given back: no stale request or error undoes a resolution. */
  lemma ResolutionIsFinal(left: Peer, right: Peer, steps: seq<Step>, more: seq<Step>)
    requires left.controlling == right.controlling && left.tie != right.tie
    requires Resolved(Run(Start(left, right), steps))
    ensures var v := Run(Start(left, right), steps);
            && Changes(v, more) == 0
            && Resolved(Run(v, more)) && Larger(Run(v, more)) == Larger(Start(left, right))
  {
    ConvergingRun(Start(left, right), left.controlling, steps);
    ConvergingRun(Run(Start(left, right), steps), left.controlling, more);
  }

  /** While the conflict lasts, one fresh request and, if it is refused, its error resolve it. */
  lemma OneExchangeResolves(left: Peer, right: Peer, steps: seq<Step>, x: Side)
    requires left.controlling == right.controlling && left.tie != right.tie
    requires !Resolved(Run(Start(left, right), steps))
    ensures var v := Run(Start(left, right), steps);
            var m := Request(x, left.controlling, At(v, x).tie);
            var v1 := Apply(Apply(v, Sends(x)), Delivered(m, true));
            Resolved(v1) || Resolved(Apply(v1, Delivered(ConflictError(x, left.controlling), true)))
  {
    ConvergingRun(Start(left, right), left.controlling, steps);
    hide Run;
    var v := Run(Start(left, right), steps);
    ConvergingRoles(v, left.controlling);
  }

  // ----- agents that agree from the start

  predicate Agreed(w: World, lead: Side) {
    && At(w, lead).controlling && !At(w, Other(lead)).controlling
    && forall m :: m in w.wire ==> m.Request? && m.controlling == (m.from == lead)
  }

  /** Agents with opposite roles never change them, whatever their tie-breakers. */
  lemma {:induction false} OppositeRolesStay(w: World, lead: Side, steps: seq<Step>)
    requires Agreed(w, lead)
    ensures Agreed(Run(w, steps), lead) && Changes(w, steps) == 0
    decreases |steps|
  {
    if steps != [] {
      AgreedStep(w, lead, steps[0]);
      hide Agreed, Apply;
      OppositeRolesStay(Apply(w, steps[0]), lead, steps[1..]);
    }
  }

  lemma AgreedStep(w: World, lead: Side, step: Step)
    requires Agreed(w, lead)
    ensures var v := Apply(w, step);
            Agreed(v, lead) && v.left.controlling == w.left.controlling && v.right.controlling == w.right.controlling
  {
  }

  // ----- equal tie-breakers

  // Both send, both requests arrive, then both errors.
  function Crossing(tie: nat): seq<Step> {
    [Sends(Left), Sends(Right),
     Delivered(Request(Left, true, tie), true), Delivered(Request(Right, true, tie), true),
     Delivered(ConflictError(Left, true), true), Delivered(ConflictError(Right, true), true)]
  }

  /** Distinct tie-breakers are needed: two controlling agents with the same one may both give up the role. */
  lemma EqualTiesDoNotConverge(tie: nat)
    ensures var w := Start(Peer(true, tie), Peer(true, tie));
            Changes(w, Crossing(tie)) == 2 && !Run(w, Crossing(tie)).left.controlling && !Run(w, Crossing(tie)).right.controlling
  {
    var w := Start(Peer(true, tie), Peer(true, tie));
    var steps := Crossing(tie);
    var w1 := Apply(w, steps[0]);
    var w2 := Apply(w1, steps[1]);
    var w3 := Apply(w2, steps[2]);
    var w4 := Apply(w3, steps[3]);
    var w5 := Apply(w4, steps[4]);
    var w6 := Apply(w5, steps[5]);
    Unroll(w, steps);
    Unroll(w1, steps[1..]);
    Unroll(w2, steps[2..]);
    Unroll(w3, steps[3..]);
    Unroll(w4, steps[4..]);
    Unroll(w5, steps[5..]);
    assert steps[6..] == [];
  }

  lemma Unroll(w: World, steps: seq<Step>)
    requires steps != []
    ensures var v := Apply(w, steps[0]);
            && Run(w, steps) == Run(v, steps[1..])
            && Changes(w, steps) ==
               (if v.left.controlling != w.left.controlling then 1 else 0)
               + (if v.right.controlling != w.right.controlling then 1 else 0) + Changes(v, steps[1..])
  {
  }
}
