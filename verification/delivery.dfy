/** A message attached to the token reaches its receiver after as many hops as lie between
    them when it is attached, unchanged, whatever joins happen on the way. */
module Delivery {
  import opened Base
  import opened JoinTable
  import opened NodeModel
  import opened NodeLaws
  import opened RingProtocol
  import opened RingInvariant
  import opened RingRun
  import opened RingHandlers
  import opened RingTheorems
  import opened Replay

  datatype Message = Message(data: string, sender: Name, receiver: Name)

  function MessageOf(t: Token): Option<Message> {
    if t.isEmpty then None else Some(Message(t.data, t.sender, t.receiver))
  }

  /** What the one token carries, wherever it is. */
  function Cargo(g: State): Option<Message> {
    if g.transit.Some? then
      (if g.transit.value.msg.TokenMsg? then MessageOf(g.transit.value.msg.token) else None)
    else if g.ring != [] && g.ring[0] in g.nodes then MessageOf(g.nodes[g.ring[0]].tokenIn)
    else None
  }

  /** `x` is `d` hops from the token's place. */
  ghost predicate Away(g: State, x: Name, d: nat) { d < |g.ring| && g.ring[d] == x }

  /** The token carries `m`, whose receiver is a member `d` hops away. */
  ghost predicate Carries(g: State, m: Message, d: nat) {
    Cargo(g) == Some(m) && Away(g, m.receiver, d)
  }

  // -------------------------------------------------------------- one step

  lemma TokenContentsStay(nd: Node, e: Event)
    requires !e.OnSendReturns? && !e.OnInitialToken? && !(e.OnMessage? && e.m.TokenMsg?)
    ensures React(nd, e).tokenIn == nd.tokenIn.(version := React(nd, e).tokenIn.version)
  {
    match e
    case OnMessage(m, sent, ip, now) => MessageContentsStay(nd, m, sent, ip, now);
    case _ =>
  }

  lemma MessageContentsStay(nd: Node, m: Msg, sent: bool, ip: nat, now: int)
    requires !m.TokenMsg?
    ensures ReactToMessage(nd, m, sent, ip, now).tokenIn
            == nd.tokenIn.(version := ReactToMessage(nd, m, sent, ip, now).tokenIn.version)
  {
    match m
    case JoinAck(_, _) => AckContents(nd, m);
    case JoinAccept(_, _, _, _) => AcceptContents(nd, m, sent, now);
    case JoinCommit(_, _, _) => CommitContents(nd, m);
    case JoinAckAck(_, _) =>
    case JoinRequest(_) =>
  }

  lemma AckContents(nd: Node, m: Msg)
    requires m.JoinAck?
    ensures HandleAck(nd, m).0.tokenIn == nd.tokenIn.(version := HandleAck(nd, m).0.tokenIn.version)
  {
    AckShape(nd, m);
  }

  lemma AcceptContents(nd: Node, m: Msg, sent: bool, now: int)
    requires m.JoinAccept?
    ensures HandleAccept(nd, m, sent, now).0.tokenIn == nd.tokenIn
  {
    AcceptShape(nd, m, sent, now);
  }

  lemma CommitContents(nd: Node, m: Msg)
    requires m.JoinCommit?
    ensures HandleCommit(nd, m).tokenIn == nd.tokenIn.(version := HandleCommit(nd, m).tokenIn.version)
  {
    LearnKeepsToken(nd, m);
    var nd1 := LearnCommit(nd, m);
    StopKeepsToken(nd1, m.requestId);
    StopKeepsToken(CompleteViaCommit(nd1), m.requestId);
  }

  lemma LearnKeepsToken(nd: Node, m: Msg)
    requires m.JoinCommit?
    ensures LearnCommit(nd, m).tokenIn == nd.tokenIn
  {
  }

  lemma StopKeepsToken(nd: Node, requestId: nat)
    ensures StopAcks(nd, requestId).tokenIn == nd.tokenIn
  {
  }

  /** A step that does not forward leaves place and contents of the token alone. */
  lemma StayingRing(g: State, l: Label)
    requires l.n in g.nodes && !Forwards(g, l) && !l.TokenArrives?
    ensures var h := Apply(g, l); g.ring <= h.ring && h.transit == g.transit
  {
  }

  lemma ArrivingRing(g: State, l: Label)
    requires l.n in g.nodes && l.TokenArrives? && g.transit.Some? && g.transit.value.msg.TokenMsg?
    ensures var h := Apply(g, l);
      && g.ring <= h.ring && h.transit.None?
      && h.nodes[l.n].tokenIn == g.transit.value.msg.token
  {
    ArriveApply(g, l);
  }

  /** What the node holding the token does to it, short of forwarding it. */
  lemma HolderKeepsCargo(g: State, l: Label)
    requires Inv(g) && Enabled(g, l) && !l.TokenArrives? && g.transit.None? && l.n == g.ring[0]
    ensures MessageOf(LocalStep(g, l).0.tokenIn) == MessageOf(g.nodes[l.n].tokenIn)
  {
    assert TokenOk(g, l.n, g.nodes[l.n]);
    LocalReacts(g, l);
    DatagramOnly(g, l);
    TokenContentsStay(g.nodes[l.n], EventOf(g, l));
  }

  lemma DatagramOnly(g: State, l: Label)
    requires NetOk(g) && Enabled(g, l) && !l.TokenArrives?
    ensures !EventOf(g, l).OnInitialToken?
    ensures EventOf(g, l).OnMessage? ==> !EventOf(g, l).m.TokenMsg?
  {
  }

  lemma CargoStays(g: State, l: Label)
    requires Inv(g) && Enabled(g, l) && !Forwards(g, l)
    ensures Cargo(Apply(g, l)) == Cargo(g) && g.ring <= Apply(g, l).ring
  {
    if l.TokenArrives? {
      ApplyNodes(g, l);
      ArrivesAtHead(g, l.n);
      ArrivingRing(g, l);
    } else {
      CargoStands(g, l);
    }
  }

  lemma CargoStands(g: State, l: Label)
    requires Inv(g) && Enabled(g, l) && !Forwards(g, l) && !l.TokenArrives?
    ensures Cargo(Apply(g, l)) == Cargo(g) && g.ring <= Apply(g, l).ring
  {
    ApplyNodes(g, l);
    StayingRing(g, l);
    if g.transit.None? && l.n == g.ring[0] { HolderKeepsCargo(g, l); }
  }

  /** Forwarding: the head of the ring sends what it makes of the token, and comes last. */
  lemma ForwardCargo(g: State, l: Label)
    requires RingOk(g) && Enabled(g, l) && Forwards(g, l)
    ensures l.n == g.ring[0] && Cargo(g) == MessageOf(g.nodes[l.n].tokenIn)
    ensures Apply(g, l).ring == Rotate(g.ring)
    ensures Cargo(Apply(g, l)) == MessageOf(OutgoingToken(g.nodes[l.n]))
  {
    var nd := g.nodes[l.n];
    if TokenReady(nd) && Used(nd.joins.joins) > 0 { StartDoesNotForward(nd, l.now); }
    assert TokenReady(nd) && Used(nd.joins.joins) == 0;
    HolderIs(g, l.n);
    ForwardApply(g, l);
  }

  lemma ForwardApply(g: State, l: Label)
    requires l.n in g.nodes && l.UseToken? && TokenReady(g.nodes[l.n]) && !g.nodes[l.n].sending
    requires Used(g.nodes[l.n].joins.joins) == 0
    ensures Apply(g, l).ring == Rotate(g.ring)
    ensures Apply(g, l).transit == Some(Unicast(g.nodes[l.n].next, TokenMsg(OutgoingToken(g.nodes[l.n]))))
  {
    UseTokenForwards(g, l);
  }

  // ------------------------------------------------------------------- hops

  /** The node takes the message out of the token. */
  predicate Consumes(g: State, l: Label, m: Message) {
    Forwards(g, l) && l.n == m.receiver && MessageOf(g.nodes[l.n].tokenIn) == Some(m)
  }

  /** A hop short of the receiver keeps the message and brings it one closer. */
  lemma HopCloser(g: State, l: Label, m: Message, d: nat)
    requires Inv(g) && Enabled(g, l) && Forwards(g, l) && Carries(g, m, d) && d > 0
    ensures Carries(Apply(g, l), m, d - 1)
    ensures !Consumes(g, l, m)
  {
    ForwardCargo(g, l);
    CurrentIs(g, l.n);
    assert g.ring[0] != g.ring[d];
  }

  /** At the receiver the forward consumes it: what goes on is empty or the receiver's own input. */
  lemma HopConsumes(g: State, l: Label, m: Message)
    requires Inv(g) && Enabled(g, l) && Forwards(g, l) && Carries(g, m, 0)
    ensures Consumes(g, l, m)
    ensures Cargo(Apply(g, l)) == if g.nodes[l.n].haveCli then MessageOf(g.nodes[l.n].cliPending) else None
  {
    ForwardCargo(g, l);
    CurrentIs(g, l.n);
  }

  /** Any other step, joins included, changes neither message nor distance. */
  lemma NoHopKeeps(g: State, l: Label, m: Message, d: nat)
    requires Inv(g) && Enabled(g, l) && !Forwards(g, l) && Carries(g, m, d)
    ensures Carries(Apply(g, l), m, d) && !Consumes(g, l, m)
  {
    CargoStays(g, l);
  }

  /** Which steps of a run forward the token. */
  ghost function Moves(states: seq<State>, labels: seq<Label>): (moves: seq<bool>)
    requires |states| == |labels| + 1
    ensures |moves| == |labels|
  {
    seq(|labels|, k requires 0 <= k < |labels| => Forwards(states[k], labels[k]))
  }

  /** The number of true entries from `i` to `j`. */
  function Count(moves: seq<bool>, i: nat, j: nat): nat
    requires i <= j <= |moves|
    decreases j
  {
    if i == j then 0 else Count(moves, i, j - 1) + (if moves[j - 1] then 1 else 0)
  }

  /** The number of times the token is forwarded from state `i` to state `j`. */
  ghost function Hops(states: seq<State>, labels: seq<Label>, i: nat, j: nat): nat
    requires |states| == |labels| + 1 && i <= j < |states|
  {
    Count(Moves(states, labels), i, j)
  }

  lemma StepCarries(states: seq<State>, labels: seq<Label>, k: nat, m: Message, d: nat)
    requires IsRun(states, labels) && JoinsStartFresh(states, labels) && k < |labels| && Carries(states[k], m, d)
    ensures !Forwards(states[k], labels[k]) ==> Carries(states[k + 1], m, d)
    ensures Forwards(states[k], labels[k]) && d > 0 ==> Carries(states[k + 1], m, d - 1)
    ensures Consumes(states[k], labels[k], m) <==> d == 0 && Forwards(states[k], labels[k])
  {
    RunInv(states, labels, k);
    assert StepAt(states, labels, k);
    if !Forwards(states[k], labels[k]) {
      NoHopKeeps(states[k], labels[k], m, d);
    } else if d > 0 {
      HopCloser(states[k], labels[k], m, d);
    } else {
      HopConsumes(states[k], labels[k], m);
    }
  }

  /** One step of the measure, at whatever distance the message is. */
  ghost predicate CarriesOn(g: State, h: State, m: Message, moved: bool) {
    forall d: nat | Carries(g, m, d) :: (!moved ==> Carries(h, m, d)) && (moved && d > 0 ==> Carries(h, m, d - 1))
  }

  ghost predicate AllCarryOn(states: seq<State>, moves: seq<bool>, i: nat, j: nat, m: Message)
    requires |states| == |moves| + 1 && i <= j < |states|
  {
    forall k | i <= k < j :: CarriesOn(states[k], states[k + 1], m, moves[k])
  }

  lemma {:induction false} Counting(states: seq<State>, moves: seq<bool>, i: nat, j: nat, m: Message, d: nat)
    requires |states| == |moves| + 1 && i <= j < |states| && AllCarryOn(states, moves, i, j, m)
    requires Carries(states[i], m, d) && Count(moves, i, j) <= d
    ensures Carries(states[j], m, d - Count(moves, i, j))
    decreases j
  {
    if i < j {
      Counting(states, moves, i, j - 1, m, d);
      assert CarriesOn(states[j - 1], states[j], m, moves[j - 1]);
    }
  }

  lemma StepCarriesOn(states: seq<State>, labels: seq<Label>, k: nat, m: Message)
    requires IsRun(states, labels) && JoinsStartFresh(states, labels) && k < |labels|
    ensures CarriesOn(states[k], states[k + 1], m, Moves(states, labels)[k])
  {
    forall e: nat | Carries(states[k], m, e)
      ensures !Moves(states, labels)[k] ==> Carries(states[k + 1], m, e)
      ensures Moves(states, labels)[k] && e > 0 ==> Carries(states[k + 1], m, e - 1)
    {
      StepCarries(states, labels, k, m, e);
    }
  }

  lemma RunCarriesOn(states: seq<State>, labels: seq<Label>, moves: seq<bool>, i: nat, j: nat, m: Message)
    requires IsRun(states, labels) && JoinsStartFresh(states, labels) && i <= j < |states|
    requires moves == Moves(states, labels)
    ensures AllCarryOn(states, moves, i, j, m)
  {
    forall k | i <= k < j ensures CarriesOn(states[k], states[k + 1], m, moves[k]) {
      StepCarriesOn(states, labels, k, m);
    }
  }

  lemma CarriedOn(states: seq<State>, labels: seq<Label>, i: nat, j: nat, m: Message, d: nat)
    requires IsRun(states, labels) && JoinsStartFresh(states, labels) && i <= j < |states|
    requires Carries(states[i], m, d) && Hops(states, labels, i, j) <= d
    ensures Carries(states[j], m, d - Hops(states, labels, i, j))
  {
    var moves := Moves(states, labels);
    RunCarriesOn(states, labels, moves, i, j, m);
    Counting(states, moves, i, j, m, d);
  }

  /** From `d` hops away the message travels unchanged, one hop nearer with every forward, and is
      consumed by the forward after `d` hops and by none before. */
  lemma DeliveryMeasure(states: seq<State>, labels: seq<Label>, i: nat, j: nat, m: Message, d: nat)
    requires IsRun(states, labels) && JoinsStartFresh(states, labels) && i <= j < |labels|
    requires Carries(states[i], m, d) && Hops(states, labels, i, j) <= d
    ensures Carries(states[j], m, d - Hops(states, labels, i, j))
    ensures Consumes(states[j], labels[j], m) <==>
              Hops(states, labels, i, j) == d && Forwards(states[j], labels[j])
  {
    CarriedOn(states, labels, i, j, m, d);
    StepCarries(states, labels, j, m, d - Hops(states, labels, i, j));
  }

  /** While the holder forwards, the distance is the number of hops along `next`. */
  lemma AwayIsFollow(g: State, l: Label, x: Name, e: nat)
    requires Inv(g) && Enabled(g, l) && Forwards(g, l)
    ensures IsRing(g, g.ring) && l.n == g.ring[0]
    ensures Away(g, x, e) <==> e < |g.ring| && Follow(g, l.n, e) == x
  {
    ForwardsInRing(g, l);
    AwayInRing(g, x, e);
  }

  lemma ForwardsInRing(g: State, l: Label)
    requires Inv(g) && Enabled(g, l) && Forwards(g, l)
    ensures IsRing(g, g.ring) && l.n == g.ring[0]
  {
    OnlyReadyForwards(g, l);
    HolderIs(g, l.n);
    QuietRing(g);
  }

  lemma OnlyReadyForwards(g: State, l: Label)
    requires Forwards(g, l)
    ensures TokenReady(g.nodes[l.n]) && !g.nodes[l.n].sending
  {
  }

  lemma AwayInRing(g: State, x: Name, e: nat)
    requires IsRing(g, g.ring)
    ensures Away(g, x, e) <==> e < |g.ring| && Follow(g, g.ring[0], e) == x
  {
    if e < |g.ring| { FollowIndex(g, g.ring, 0, e); }
  }

  /** Input waits at the node of label `l`, and the token has room for it. */
  predicate Boards(g: State, l: Label) { l.n in g.nodes && g.nodes[l.n].haveCli && TokenFree(g.nodes[l.n]) }

  /** A forward takes waiting input along, as it was read, exactly when the token arrives without a message or
      with one for the forwarding node; it then waits no longer. Without input such a token goes on empty, and
      any other with the message it has. */
  lemma ForwardTakesAlong(g: State, l: Label)
    requires Inv(g) && Enabled(g, l) && Forwards(g, l)
    ensures var nd, h := g.nodes[l.n], Apply(g, l);
      && (Boards(g, l) <==> nd.haveCli && (Cargo(g).None? || Cargo(g).value.receiver == l.n))
      && l.n in h.nodes
      && (if Boards(g, l) then Cargo(h) == MessageOf(nd.cliPending) && !h.nodes[l.n].haveCli
          else
            && h.nodes[l.n].haveCli == nd.haveCli && h.nodes[l.n].cliPending == nd.cliPending
            && Cargo(h) == if Cargo(g).Some? && Cargo(g).value.receiver != l.n then Cargo(g) else None)
  {
    ForwardCargo(g, l);
    CurrentIs(g, l.n);
    ApplyNodes(g, l);
    ForwardIs(g, l);
    OutgoingIs(g.nodes[l.n]);
  }

  lemma ForwardIs(g: State, l: Label)
    requires Enabled(g, l) && Forwards(g, l)
    ensures LocalStep(g, l).0 == BeginForward(g.nodes[l.n]).0
  {
    OnlyReadyForwards(g, l);
    if Used(g.nodes[l.n].joins.joins) > 0 { StartDoesNotForward(g.nodes[l.n], l.now); }
  }

  lemma OutgoingIs(nd: Node)
    ensures var t, nd' := OutgoingToken(nd), BeginForward(nd).0;
      if nd.haveCli && TokenFree(nd) then MessageOf(t) == MessageOf(nd.cliPending) && !nd'.haveCli
      else
        && nd'.haveCli == nd.haveCli && nd'.cliPending == nd.cliPending
        && MessageOf(t) == if TokenFree(nd) then None else MessageOf(nd.tokenIn)
  {
  }

  /** Attaching a message for a member `e` hops ahead leaves it `e - 1` hops away; one for the
      sender itself has the whole ring to go. */
  lemma AttachDistance(g: State, l: Label, e: nat)
    requires Inv(g) && Enabled(g, l) && Forwards(g, l) && Boards(g, l) && !g.nodes[l.n].cliPending.isEmpty
    requires e < |g.ring| && Follow(g, l.n, e) == g.nodes[l.n].cliPending.receiver
    ensures var m := MessageOf(g.nodes[l.n].cliPending).value;
      Carries(Apply(g, l), m, (if e > 0 then e else |g.ring|) - 1)
  {
    AwayIsFollow(g, l, g.nodes[l.n].cliPending.receiver, e);
    ForwardCargo(g, l);
  }

  lemma AttachedAt(states: seq<State>, labels: seq<Label>, i: nat, e: nat)
    requires IsRun(states, labels) && JoinsStartFresh(states, labels) && i < |labels|
    requires Forwards(states[i], labels[i]) && Boards(states[i], labels[i])
    requires !states[i].nodes[labels[i].n].cliPending.isEmpty
    requires e < |states[i].ring|
    requires Follow(states[i], labels[i].n, e) == states[i].nodes[labels[i].n].cliPending.receiver
    ensures Carries(states[i + 1], MessageOf(states[i].nodes[labels[i].n].cliPending).value,
                    (if e > 0 then e else |states[i].ring|) - 1)
  {
    RunInv(states, labels, i);
    assert StepAt(states, labels, i);
    AttachDistance(states[i], labels[i], e);
  }

  /** So from the attaching forward to the receiver's place the token makes exactly as many hops
      as lie between sender and receiver, or as the ring has members when they are the same. */
  lemma AttachedIsDelivered(states: seq<State>, labels: seq<Label>, i: nat, j: nat, e: nat)
    requires IsRun(states, labels) && JoinsStartFresh(states, labels) && i < j < |labels|
    requires Forwards(states[i], labels[i]) && Boards(states[i], labels[i])
    requires !states[i].nodes[labels[i].n].cliPending.isEmpty
    requires e < |states[i].ring|
    requires Follow(states[i], labels[i].n, e) == states[i].nodes[labels[i].n].cliPending.receiver
    requires Hops(states, labels, i + 1, j) < (if e > 0 then e else |states[i].ring|)
    ensures var m := MessageOf(states[i].nodes[labels[i].n].cliPending).value;
      Consumes(states[j], labels[j], m) <==>
        Forwards(states[j], labels[j]) && 1 + Hops(states, labels, i + 1, j) == (if e > 0 then e else |states[i].ring|)
  {
    AttachedAt(states, labels, i, e);
    var m := MessageOf(states[i].nodes[labels[i].n].cliPending).value;
    DeliveryMeasure(states, labels, i + 1, j, m, (if e > 0 then e else |states[i].ring|) - 1);
  }
}
