/** What one step of a node does to the acknowledgements of a join, and how a coordinator waits for one. */
module JoinWait {
  import opened Base
  import opened JoinTable
  import opened NodeModel
  import opened RingProtocol
  import opened RingHandlers

  /** The two neighbours of the coordinator that a join waits for. */
  datatype Part = TheJoiner | ThePredecessor

  /** The acknowledgement of request `id` by `from`, as `to` may receive it. */
  predicate IsAnswer(p: Packet, to: Route, id: nat, from: Name) { p.msg == JoinAck(id, from) && Addressed(p, to) }

  /** The node still has tries left and has not been told that its acknowledgement arrived. */
  predicate Sending(nd: Node) {
    nd.ackSender.active && !nd.ackSender.gotAckAck && nd.ackSender.retries < JOIN_ACK_MAX_RETRIES
  }

  predicate Resends(nd: Node, to: Route, id: nat) {
    Sending(nd) && nd.ackSender.requestId == id && nd.ackSender.coord == to
  }

  // ------------------------------------------------------------ acknowledgements sent

  /** The accept delivered by `l` changes a route of this node. */
  predicate Applies(nd: Node, l: Label) { l.Deliver? && l.p.msg.JoinAccept? && ApplyAccept(nd, l.p.msg).1 }

  predicate Answers(nd: Node, l: Label, to: Route, id: nat) {
    Applies(nd, l) && l.p.msg.requestId == id && l.p.msg.before == to
  }

  /** An acknowledgement repeats the one under way, or answers an accept that applies. */
  predicate IsOwnAck(was: Node, l: Label, p: Packet) {
    p.msg.JoinAck? ==>
      && p.Unicast? && p.msg.from == was.current.name
      && (Resends(was, p.dst, p.msg.requestId) || Answers(was, l, p.dst, p.msg.requestId))
  }

  predicate KeepsAnswer(was: Node, l: Label, nd: Node) {
    Sending(nd) ==>
      || Resends(was, nd.ackSender.coord, nd.ackSender.requestId)
      || Answers(was, l, nd.ackSender.coord, nd.ackSender.requestId)
  }

  ghost predicate StepOf(was: Node, l: Label, nd: Node, out: seq<Packet>) {
    && nd.current == was.current && (was.joined ==> nd.joined) && KeepsAnswer(was, l, nd)
    && forall p | p in out :: IsOwnAck(was, l, p)
  }

  lemma AcceptHeard(was: Node, l: Label)
    requires l.Deliver? && l.p.msg.JoinAccept?
    ensures var (nd, out) := HandleAccept(was, l.p.msg, l.sent, l.now);
      && StepOf(was, l, nd, out)
      && (forall p | p in out :: p.msg.JoinAck?)
      && nd.inflight == was.inflight && nd.haveToken == was.haveToken && nd.sending == was.sending
      && (was.joined ==> nd.prev == was.prev)
  {
  }

  /** The acknowledgement under way goes on as it was, or ends. */
  predicate KeepsSender(was: Node, nd: Node) {
    nd.current == was.current && (was.joined ==> nd.joined) && (Sending(nd) ==> nd.ackSender == was.ackSender)
  }

  lemma NoneSent(was: Node, l: Label, nd: Node, out: seq<Packet>)
    requires KeepsSender(was, nd) && forall p | p in out :: !p.msg.JoinAck?
    ensures StepOf(was, l, nd, out)
  {
  }

  lemma CompletesQuietly(was: Node)
    ensures var (nd, out) := TryComplete(was);
      KeepsSender(was, nd) && nd.ackSender == was.ackSender && forall p | p in out :: p.msg.JoinCommit?
  {
  }

  lemma AckHeard(was: Node, l: Label, m: Msg)
    requires m.JoinAck?
    ensures StepOf(was, l, HandleAck(was, m).0, HandleAck(was, m).1)
  {
    AckShape(was, m);
    CompletesQuietly(Confirm(was, m.from));
    var (nd, out) := HandleAck(was, m);
    forall p | p in out ensures !p.msg.JoinAck? { AckReplies(was, m, p); }
    NoneSent(was, l, nd, out);
  }

  lemma AckReplies(was: Node, m: Msg, p: Packet)
    requires m.JoinAck? && p in HandleAck(was, m).1
    ensures p.msg.JoinAckAck? || p.msg.JoinCommit?
  {
    AckShape(was, m);
    CompletesQuietly(Confirm(was, m.from));
    var out := HandleAck(was, m).1;
    var mine := was.inflight.active && was.inflight.requestId == m.requestId;
    var sent := if mine then TryComplete(Confirm(was, m.from)).1 else [];
    assert out == out[..|sent|] + out[|sent|..];
  }

  lemma CommitKeeps(was: Node, m: Msg)
    requires m.JoinCommit?
    ensures KeepsSender(was, HandleCommit(was, m))
  {
    var nd1 := LearnCommit(was, m);
    assert KeepsSender(was, nd1) && nd1.ackSender == was.ackSender;
    assert KeepsSender(nd1, CompleteViaCommit(nd1)) && CompleteViaCommit(nd1).ackSender == nd1.ackSender;
  }

  lemma CommitHeard(was: Node, l: Label, m: Msg)
    requires m.JoinCommit?
    ensures StepOf(was, l, HandleCommit(was, m), [])
  {
    CommitKeeps(was, m);
    NoneSent(was, l, HandleCommit(was, m), []);
  }

  lemma MessageHeard(was: Node, l: Label)
    requires l.Deliver?
    ensures var (nd, out) := Dispatch(was, l.p.msg, l.sent, l.ip, l.now); StepOf(was, l, nd, out)
  {
    match l.p.msg
    case JoinAccept(_, _, _, _) => AcceptHeard(was, l);
    case JoinAck(_, _) => AckHeard(was, l, l.p.msg);
    case JoinCommit(_, _, _) => CommitHeard(was, l, l.p.msg);
    case TokenMsg(t) => NoneSent(was, l, ReceiveToken(was, t), []);
    case JoinAckAck(_, _) => NoneSent(was, l, HandleAckAck(was, l.p.msg), []);
    case JoinRequest(r) => NoneSent(was, l, HandleRequest(was, r, l.ip, l.now), []);
  }

  lemma TickQuiet(was: Node, now: int)
    ensures var (nd, out) := InflightTick(was, now);
      && KeepsSender(was, nd) && nd.ackSender == was.ackSender
      && forall p | p in out :: p.msg.JoinCommit? || p.msg.JoinAccept?
  {
    CompletesQuietly(was);
  }

  lemma TickOf(was: Node, l: Label, now: int)
    ensures StepOf(was, l, InflightTick(was, now).0, InflightTick(was, now).1)
  {
    TickQuiet(was, now);
    NoneSent(was, l, InflightTick(was, now).0, InflightTick(was, now).1);
  }

  lemma UseOf(was: Node, l: Label, now: int)
    ensures StepOf(was, l, HandleToken(was, now).0, HandleToken(was, now).1)
  {
    var (joins, e) := Pop(was.joins);
    if TokenReady(was) && Used(was.joins.joins) > 0 && e.Some? {
      TickQuiet(StartInflight(was.(joins := joins), e.value), now);
    }
    NoneSent(was, l, HandleToken(was, now).0, HandleToken(was, now).1);
  }

  lemma AckTickOf(was: Node, l: Label, now: int)
    ensures StepOf(was, l, AckSenderTick(was, now).0, AckSenderTick(was, now).1)
  {
  }

  /** Whatever node steps, and however. */
  lemma StepAcks(h: State, l: Label)
    requires Enabled(h, l) && (h.transit.Some? ==> h.transit.value.msg.TokenMsg?)
    ensures StepOf(h.nodes[l.n], l, LocalStep(h, l).0, LocalStep(h, l).1)
  {
    var was := h.nodes[l.n];
    match l
    case Deliver(_, _, _, _, _) => MessageHeard(was, l);
    case InflightTimer(_, now) => TickOf(was, l, now);
    case UseToken(_, now) => UseOf(was, l, now);
    case AckTimer(_, now) => AckTickOf(was, l, now);
    case _ =>
  }

  // ---------------------------------------------------------------- who does not wait

  /** No token but one that is being sent away, and no join. */
  predicate Idle(nd: Node) { !nd.inflight.active && (nd.haveToken ==> nd.sending) }

  ghost predicate Silent(out: seq<Packet>) { forall p | p in out :: !p.msg.TokenMsg? && !p.msg.JoinAccept? }

  lemma IdleHears(was: Node, l: Label)
    requires Idle(was) && !was.sending && l.Deliver? && !l.p.msg.TokenMsg?
    ensures var (nd, out) := Dispatch(was, l.p.msg, l.sent, l.ip, l.now); Idle(nd) && Silent(out)
  {
    match l.p.msg
    case JoinAccept(_, _, _, _) => AcceptHeard(was, l);
    case JoinAck(_, _) => AckShape(was, l.p.msg);
    case JoinCommit(_, _, _) => CommitShape(was, l.p.msg);
    case _ =>
  }

  lemma IdleSteps(h: State, l: Label)
    requires Enabled(h, l) && Idle(h.nodes[l.n]) && h.transit == None
    requires forall p | p in h.net :: !p.msg.TokenMsg?
    ensures var (nd, out) := LocalStep(h, l); Idle(nd) && Silent(out) && !Forwards(h, l)
  {
    if l.Deliver? { IdleHears(h.nodes[l.n], l); }
  }

  // ------------------------------------------------------------------ who waits

  /** The node has the token and a join under way, in which it has not heard from `m`. */
  predicate Waits(nd: Node, id: nat, part: Part, m: Name) {
    && nd.joined && nd.haveToken && !nd.sending && nd.inflight.active && nd.inflight.requestId == id
    && match part
       case TheJoiner => nd.inflight.joiner.name == m && !nd.inflight.gotJoiner
       case ThePredecessor => nd.inflight.expectedPrev == nd.prev.name == m && !nd.inflight.gotPrev
  }

  predicate SameJoin(was: Node, nd: Node) {
    nd.inflight.joiner == was.inflight.joiner && nd.prev == was.prev
  }

  /** Whatever it hears but a commit of that request and the answer, it goes on waiting. */
  lemma WaiterHears(was: Node, l: Label, id: nat, part: Part, m: Name)
    requires Waits(was, id, part, m) && l.Deliver? && !l.p.msg.TokenMsg?
    requires l.p.msg.JoinCommit? ==> l.p.msg.requestId != id
    requires l.p.msg != JoinAck(id, m)
    ensures var (nd, out) := Dispatch(was, l.p.msg, l.sent, l.ip, l.now);
      Waits(nd, id, part, m) && SameJoin(was, nd) && Silent(out)
  {
    match l.p.msg
    case JoinAccept(_, _, _, _) => AcceptHeard(was, l);
    case JoinAck(_, _) => WaiterHearsAck(was, l.p.msg, id, part, m);
    case JoinCommit(_, _, _) => CommitShape(was, l.p.msg);
    case _ =>
  }

  lemma WaiterHearsAck(was: Node, a: Msg, id: nat, part: Part, m: Name)
    requires Waits(was, id, part, m) && a.JoinAck? && a != JoinAck(id, m)
    ensures var (nd, out) := HandleAck(was, a); Waits(nd, id, part, m) && SameJoin(was, nd) && Silent(out)
  {
    AckShape(was, a);
    if a.requestId == id { assert TryComplete(Confirm(was, a.from)) == (Confirm(was, a.from), []); }
  }

  ghost predicate OnlyAccepts(was: Node, out: seq<Packet>) {
    forall p | p in out :: !p.msg.TokenMsg? && (p.msg.JoinAccept? ==> p.msg == AcceptMsg(was))
  }

  /** The commit of the request reaches `n`. */
  predicate HearsCommit(l: Label, n: Name, id: nat) {
    l.Deliver? && l.n == n && l.p.msg.JoinCommit? && l.p.msg.requestId == id
  }

  lemma WaiterSteps(h: State, l: Label, id: nat, part: Part, m: Name)
    requires Enabled(h, l) && Waits(h.nodes[l.n], id, part, m) && h.transit == None && !HearsCommit(l, l.n, id)
    requires forall p | p in h.net :: !p.msg.TokenMsg? && !IsAnswer(p, h.nodes[l.n].current, id, m)
    ensures var was, (nd, out) := h.nodes[l.n], LocalStep(h, l);
      Waits(nd, id, part, m) && SameJoin(was, nd) && OnlyAccepts(was, out) && !Forwards(h, l)
  {
    var was := h.nodes[l.n];
    match l
    case Deliver(_, p, _, _, _) => WaiterHears(was, l, id, part, m);
    case InflightTimer(_, now) => InflightTimerShape(was, now);
    case _ =>
  }
}
