/** What each handler achieves, told from the node before and after and the packets sent. */
module NodeEffects {
  import opened Base
  import opened JoinTable
  import opened JoinTableLaws
  import opened NodeModel
  import opened NodeLaws
  import opened RingProtocol
  import opened RingInvariant
  import opened RingRun
  import opened RingTheorems
  import opened LossyRuns
  import opened JoinWait

  // ---------------------------------------------------------------- acknowledgements

  function ThreeTimes(p: Packet): seq<Packet> { [p, p, p] }

  /** The acknowledgement that makes both confirmations known. */
  predicate Completes(nd: Node, id: nat, from: Name) {
    && nd.inflight.active && nd.inflight.requestId == id
    && (nd.inflight.gotPrev || from == nd.inflight.expectedPrev || from == nd.prev.name)
    && (nd.inflight.gotJoiner || from == nd.inflight.joiner.name)
  }

  /** Where its sender is answered: the joiner under way at its port, else the predecessor as it then stands. */
  function AnswerTo(nd: Node, id: nat, from: Name): Option<Route> {
    if nd.inflight.active && from == nd.inflight.joiner.name then Some(Route(from, nd.inflight.joiner.port))
    else if !Completes(nd, id, from) && from == nd.prev.name then Some(Route(from, nd.prev.port))
    else None
  }

  /** An acknowledgement is answered exactly three times, by its own id and its sender's name, when it comes
      from the joiner under way or the predecessor, and not otherwise; one from a predecessor that completes
      the join is not, since the joiner is the predecessor then. A completion is announced first. */
  lemma AckAnswered(nd: Node, id: nat, from: Name)
    ensures var (nd', out) := HandleAck(nd, JoinAck(id, from));
      var to := AnswerTo(nd, id, from);
      && nd'.inflight.active == (nd.inflight.active && !Completes(nd, id, from))
      && out == (if Completes(nd, id, from)
                 then [Broadcast(JoinCommit(id, nd.inflight.joiner.name, (nd.lastSeen + 1) % U32_SIZE))] else [])
              + (if to.Some? then ThreeTimes(Unicast(to.value, JoinAckAck(id, from))) else [])
  {
    if Completes(nd, id, from) { LastAckAnswered(nd, id, from); } else { OtherAckAnswered(nd, id, from); }
  }

  lemma LastAckAnswered(nd: Node, id: nat, from: Name)
    requires Completes(nd, id, from)
    ensures var (nd', out) := HandleAck(nd, JoinAck(id, from));
      var j := nd.inflight.joiner;
      && !nd'.inflight.active
      && out == [Broadcast(JoinCommit(id, j.name, (nd.lastSeen + 1) % U32_SIZE))]
              + (if from == j.name then ThreeTimes(Unicast(Route(from, j.port), JoinAckAck(id, from))) else [])
  {
    assert Confirm(nd, from).inflight.gotPrev && Confirm(nd, from).inflight.gotJoiner;
  }

  lemma OtherAckAnswered(nd: Node, id: nat, from: Name)
    requires !Completes(nd, id, from)
    ensures var (nd', out) := HandleAck(nd, JoinAck(id, from));
      var to := AnswerTo(nd, id, from);
      && nd'.inflight.active == nd.inflight.active
      && out == if to.Some? then ThreeTimes(Unicast(to.value, JoinAckAck(id, from))) else []
  {
    var nd1 := if nd.inflight.active && nd.inflight.requestId == id then Confirm(nd, from) else nd;
    assert TryComplete(Confirm(nd, from)) == (Confirm(nd, from), []) || nd1 == nd;
  }

  /** A node whose acknowledgement is answered so is done with it: the coordinator's answer to its
      acknowledgement is addressed to it, and takes it out of its timer. */
  lemma AnswerStopsSender(c: Node, s: Node, p: Packet)
    requires p in HandleAck(c, JoinAck(s.ackSender.requestId, s.current.name)).1 && p.msg.JoinAckAck?
    requires s.ackSender.active
    ensures p.Unicast? && p.dst.name == s.current.name
    ensures var s' := HandleAckAck(s, p.msg);
      !Sending(s') && s' == s.(ackSender := s'.ackSender) && forall now :: AckSenderTick(s', now).1 == []
  {
    AckAnswered(c, s.ackSender.requestId, s.current.name);
  }

  lemma NeighbourIsAnswered(c: Node, id: nat, from: Name)
    requires AnswerTo(c, id, from).Some?
    ensures Unicast(AnswerTo(c, id, from).value, JoinAckAck(id, from)) in HandleAck(c, JoinAck(id, from)).1
  {
    AckAnswered(c, id, from);
    var (nd, out) := HandleAck(c, JoinAck(id, from));
    assert out[|out| - 1] in out && out[|out| - 1] == Unicast(AnswerTo(c, id, from).value, JoinAckAck(id, from));
  }

  /** None of the moves delivers to `n` an accept that changes a route of it. */
  ghost predicate NoneApplies(g: State, ms: seq<Move>, n: Name)
    decreases |ms|
  {
    ms != [] && CanMove(g, ms[0]) ==>
      && (ms[0].Step? && ms[0].l.n == n ==> !Applies(g.nodes[n], ms[0].l))
      && NoneApplies(Next(g, ms[0]), ms[1..], n)
  }

  ghost predicate NoneSentBy(g: State, h: State, n: Name) {
    forall p | p in h.net && p.msg.JoinAck? && p.msg.from == n :: p in g.net
  }

  lemma StepSendsNone(g: State, l: Label, n: Name)
    requires Inv(g) && Enabled(g, l) && n in g.nodes && !Sending(g.nodes[n]) && (l.n == n ==> !Applies(g.nodes[n], l))
    ensures n in Apply(g, l).nodes && !Sending(Apply(g, l).nodes[n]) && NoneSentBy(g, Apply(g, l), n)
  {
    StepAcks(g, l);
    CurrentIs(g, l.n);
    ApplyNodes(g, l);
    NotFrom(g.nodes[l.n], l, LocalStep(g, l).1, n);
  }

  lemma NotFrom(was: Node, l: Label, out: seq<Packet>, n: Name)
    requires forall p | p in out :: IsOwnAck(was, l, p)
    requires was.current.name == n ==> !Sending(was) && !Applies(was, l)
    ensures forall p | p in out :: !(p.msg.JoinAck? && p.msg.from == n)
  {
  }

  /** Once it has stopped, a node sends no acknowledgement, whatever it hears, until it applies another accept. */
  lemma {:induction false} SendsNoMore(g: State, ms: seq<Move>, h: State, n: Name)
    requires Inv(g) && n in g.nodes && !Sending(g.nodes[n])
    requires Goes(g, ms, h) && AllFresh(g, ms) && NoneApplies(g, ms, n)
    ensures n in h.nodes && !Sending(h.nodes[n]) && NoneSentBy(g, h, n)
    decreases |ms|
  {
    if ms != [] {
      var g1 := Next(g, ms[0]);
      match ms[0] {
        case Step(l) =>
          StepSendsNone(g, l, n);
          StepKeepsInv(g, l);
        case Loss(lost) => LossKeepsInv(g, lost);
      }
      SendsNoMore(g1, ms[1..], h, n);
    }
  }

  // ------------------------------------------------------------------------ requests

  /** The node can use the request: it is not its own, not the one in flight, not one it knows completed. */
  ghost predicate Wanted(nd: Node, name: Name) {
    && name != nd.current.name && !(nd.inflight.active && nd.inflight.joiner.name == name)
    && forall i | 0 <= i < |nd.joins.completed| :: nd.joins.completed[i].name != name
  }

  /** A request that is wanted, with a slot left, is pending afterwards as heard, in the first slot that was
      free or had its name; every other slot, and all else, is as it was. Any other changes nothing. */
  lemma RequestHeard(nd: Node, r: Request, ip: nat, now: int) returns (k: nat)
    requires |nd.joins.joins| == MAX_PENDING_JOINS
    ensures var nd' := HandleRequest(nd, r, ip, now);
      if Wanted(nd, r.name) && (exists i :: 0 <= i < |nd.joins.joins| && nd.joins.joins[i].None?) then
        && k < |nd.joins.joins|
        && (nd.joins.joins[k].None? || nd.joins.joins[k].value.name == r.name)
        && (forall i | 0 <= i < k :: nd.joins.joins[i].Some? && nd.joins.joins[i].value.name != r.name)
        && nd' == nd.(joins := nd.joins.(joins :=
             nd.joins.joins[k := Some(PendingJoin(r.requestId, r.name, r.port, ip, now))]))
      else nd' == nd
  {
    k := FirstFit(nd.joins.joins, r.name, 0);
    UsedBounds(nd.joins.joins);
    IsCompletedMeansInCache(nd.joins.completed, r.name);
  }

  // ----------------------------------------------------------------------- user input

  /** Input read while the token at hand is empty waits as it was read, in place of any that waited; else it
      is not taken. */
  lemma InputWaits(nd: Node, t: Token)
    ensures var nd' := ReadCli(nd, t);
      && nd' == nd.(cliPending := nd'.cliPending, haveCli := nd'.haveCli)
      && (if nd.tokenIn.isEmpty
          then nd'.haveCli && nd'.cliPending == t
          else nd'.haveCli == nd.haveCli && nd'.cliPending == nd.cliPending)
  {
  }

  /** A forward passes the token on to the successor. Waiting input leaves with a free token, as it was read
      and with the node's version; without any a free token leaves empty, and a token for somebody else as it
      came, the input still waiting. */
  lemma ForwardSends(nd: Node, now: int) returns (t: Token)
    requires TokenReady(nd) && Used(nd.joins.joins) == 0
    ensures var (nd', out) := HandleToken(nd, now);
      && out == [Unicast(nd.next, TokenMsg(t))] && nd'.sending
      && nd' == nd.(sending := true, haveCli := nd'.haveCli, cliPending := nd'.cliPending)
      && (if nd.haveCli && TokenFree(nd) then
            && t.data == nd.cliPending.data && t.sender == nd.cliPending.sender && t.receiver == nd.cliPending.receiver
            && t.isEmpty == nd.cliPending.isEmpty && t.version == nd.lastSeen && !nd'.haveCli
          else
            && nd'.haveCli == nd.haveCli && nd'.cliPending == nd.cliPending
            && (if TokenFree(nd) then t.isEmpty && t.version == nd.tokenIn.version else t == nd.tokenIn))
  {
    t := HandleToken(nd, now).1[0].msg.token;
  }

  /** So what is read when the token is empty is what leaves with it. */
  lemma InputLeaves(nd: Node, input: Token, now: int) returns (t: Token)
    requires TokenReady(nd) && Used(nd.joins.joins) == 0 && nd.tokenIn.isEmpty
    ensures HandleToken(ReadCli(nd, input), now).1 == [Unicast(nd.next, TokenMsg(t))]
    ensures t == input.(version := nd.lastSeen)
  {
    InputWaits(nd, input);
    t := ForwardSends(ReadCli(nd, input), now);
  }

  // ------------------------------------------------------------------------ joins

  function Offer(nd: Node): Msg {
    JoinAccept(nd.inflight.requestId, Route(nd.inflight.joiner.name, nd.inflight.joiner.port), nd.current, nd.prev)
  }

  /** Every neighbour that has not confirmed is offered the join, and nobody else is sent anything. */
  ghost predicate OffersToBoth(nd: Node, out: seq<Packet>) {
    var toJoiner := Unicast(Route(nd.inflight.joiner.name, nd.inflight.joiner.port), Offer(nd));
    && (!nd.inflight.gotJoiner ==> toJoiner in out) && (!nd.inflight.gotPrev ==> Unicast(nd.prev, Offer(nd)) in out)
    && (forall p | p in out ::
        (p == toJoiner && !nd.inflight.gotJoiner) || (p == Unicast(nd.prev, Offer(nd)) && !nd.inflight.gotPrev))
    && |out| == (if nd.inflight.gotJoiner then 0 else 1) + (if nd.inflight.gotPrev then 0 else 1)
  }

  /** A holder with pending joins takes the oldest out of its table, is its coordinator from then on, and offers
      the join at once to the joiner and to its predecessor, unless that is itself. */
  lemma StartOffers(nd: Node, now: int) returns (k: nat)
    requires TokenReady(nd) && Used(nd.joins.joins) > 0
    ensures IsOldest(nd.joins.joins, k)
    ensures var (nd', out) := HandleToken(nd, now);
      && nd'.joins == nd.joins.(joins := nd.joins.joins[k := None])
      && nd' == nd.(joins := nd'.joins, inflight := nd'.inflight)
      && nd'.inflight.active && Some(nd'.inflight.joiner) == nd.joins.joins[k]
      && nd'.inflight.expectedPrev == nd.prev.name
      && nd'.inflight.requestId == nd'.inflight.joiner.requestId
      && !nd'.inflight.gotJoiner && (nd'.inflight.gotPrev <==> nd.prev.name == nd.current.name)
      && nd'.inflight.lastSent == now && OffersToBoth(nd', out)
  {
    PopAccounting(nd.joins);
    k := Oldest(nd.joins.joins).value;
    OffersWhenDue(StartInflight(nd.(joins := Pop(nd.joins).0), Pop(nd.joins).1.value), now);
  }

  /** A join that waits is offered again just when a second has passed, and again and again; what else it knows
      does not change. */
  lemma OffersWhenDue(nd: Node, now: int)
    requires nd.inflight.active && !(nd.inflight.gotPrev && nd.inflight.gotJoiner)
    ensures var (nd', out) := InflightTick(nd, now);
      if nd.inflight.lastSent == 0 || now - nd.inflight.lastSent >= JOIN_ACCEPT_TIMEOUT_S then
        && OffersToBoth(nd, out)
        && nd' == nd.(inflight := nd.inflight.(lastSent := now, retries := nd'.inflight.retries))
      else out == [] && nd' == nd
  {
    var toJoiner := Unicast(Route(nd.inflight.joiner.name, nd.inflight.joiner.port), Offer(nd));
    assert toJoiner in [toJoiner] && Unicast(nd.prev, Offer(nd)) in [Unicast(nd.prev, Offer(nd))];
  }

  /** With both confirmations in, the join is over: the joiner is the predecessor, and the successor as well if
      the node was alone; the version goes up by one with the token's, and one commit announces all this. */
  lemma CompletionAnnounced(nd: Node)
    ensures var (nd', out) := TryComplete(nd);
      var j, v := nd.inflight.joiner, (nd.lastSeen + 1) % U32_SIZE;
      if nd.inflight.active && nd.inflight.gotPrev && nd.inflight.gotJoiner then
        && out == [Broadcast(JoinCommit(nd.inflight.requestId, j.name, v))]
        && !nd'.inflight.active && !nd'.inflight.gotPrev && !nd'.inflight.gotJoiner
        && nd'.prev == Route(j.name, j.port)
        && nd'.next == (if nd.inflight.expectedPrev == nd.current.name then Route(j.name, j.port) else nd.next)
        && nd'.lastSeen == v && nd'.tokenIn == nd.tokenIn.(version := v)
        && InCache(nd'.joins.completed, j.name)
        && nd' == nd.(prev := nd'.prev, next := nd'.next, lastSeen := v, tokenIn := nd'.tokenIn, joins := nd'.joins,
                      inflight := nd'.inflight)
      else out == [] && nd' == nd
  {
    if nd.inflight.active && nd.inflight.gotPrev && nd.inflight.gotJoiner {
      Recorded(nd.joins.completed, nd.inflight.joiner.requestId, nd.inflight.joiner.name);
    }
  }

  lemma Recorded(c: seq<CompletedJoin>, id: nat, name: Name)
    ensures InCache(Record(c, id, name), name)
  {
    var i := FindCompleted(c, name, 0);
    var d := Record(c, id, name);
    if i < |c| { assert d[i].name == name; } else { assert d[|d| - 1].name == name; }
  }

  /** An accept that names this node as the joiner makes it a member between its two neighbours, once; one that
      names it as the predecessor of its successor puts the joiner there. Either is acknowledged to the
      coordinator, and again until it is answered. No other accept changes a route or sends anything. */
  lemma AcceptTaken(nd: Node, m: Msg, sent: bool, now: int)
    requires m.JoinAccept?
    ensures var (nd', out) := HandleAccept(nd, m, sent, now);
      var joins := nd.current.name == m.newNode.name && !nd.joined && m.requestId == nd.request.id;
      var follows := nd.current.name == m.prev.name != m.newNode.name && nd.next.name == m.before.name;
      && InCache(nd'.joins.completed, m.newNode.name)
      && (if joins || follows then
            && nd'.joined && nd'.next == (if joins then m.before else m.newNode)
            && nd'.prev == (if joins then m.prev else nd.prev)
            && out == [Unicast(m.before, JoinAck(m.requestId, nd.current.name))]
            && Resends(nd', m.before, m.requestId)
            && nd'.ackSender.lastSent == (if sent then now else 0) && nd'.ackSender.retries == (if sent then 1 else 0)
          else nd' == nd.(joins := nd'.joins) && out == [])
  {
    Recorded(nd.joins.completed, m.requestId, m.newNode.name);
    AcceptShape(nd, m, sent, now);
  }

  /** An acknowledgement goes out again when a second has passed, 30 times in all; then, or when answered, the
      node stops. */
  lemma AcksWhenDue(nd: Node, now: int)
    ensures var (nd', out) := AckSenderTick(nd, now);
      var a := nd.ackSender;
      var due := a.active && !a.gotAckAck && (a.lastSent == 0 || now - a.lastSent >= JOIN_ACK_RESEND_S);
      && nd' == nd.(ackSender := nd'.ackSender)
      && (if due && a.retries < JOIN_ACK_MAX_RETRIES then
            && out == [Unicast(a.coord, JoinAck(a.requestId, nd.current.name))]
            && nd'.ackSender == a.(lastSent := now, retries := a.retries + 1)
          else out == [] && (nd'.ackSender.active <==> a.active && !a.gotAckAck && !due)
               && (nd'.ackSender.active ==> nd' == nd))
  {
  }

  /** A node that is no member asks to join, by its own name, id and port, when ten seconds have passed. */
  lemma AsksWhenDue(nd: Node, now: int)
    ensures var (nd', out, ok) := RequestTick(nd, now);
      var due := !nd.joined && (nd.request.lastSent == 0 || now - nd.request.lastSent >= JOIN_REQUEST_TIMEOUT_S);
      && nd' == nd.(request := nd'.request)
      && (!ok <==> due && nd.request.retries >= JOIN_REQUEST_RETRIES)
      && (if due && ok then
            && out == [Broadcast(JoinRequest(Request(nd.current.name, nd.request.id, nd.current.port)))]
            && nd'.request.lastSent == now && nd'.request.retries == nd.request.retries + 1
          else out == [] && nd' == nd)
  {
  }

  // ------------------------------------------------------------- what is learnt and forgotten

  ghost predicate Empty(s: Slots) { forall i | 0 <= i < |s| :: s[i].None? }

  /** A commit marks its name as completed; a later version is remembered and empties the table, since the joins
      pending there were meant for an older ring. */
  lemma CommitLearnt(nd: Node, id: nat, name: Name, version: nat)
    ensures var nd' := LearnCommit(nd, JoinCommit(id, name, version));
      && InCache(nd'.joins.completed, name) && OnlyCleared(nd'.joins.joins, nd.joins.joins)
      && nd'.lastSeen == (if version > nd.lastSeen then version else nd.lastSeen)
      && (version > nd.lastSeen ==> Empty(nd'.joins.joins))
      && nd' == nd.(lastSeen := nd'.lastSeen, joins := nd'.joins)
  {
    Recorded(nd.joins.completed, id, name);
    OnlyClearedOps(nd.joins, name, id, 0, 0);
    DropAllEmpties(MarkCompletedAndPrunePending(nd.joins, name, id));
  }

  /** And an acknowledgement of that request is not sent again; another one is not touched. */
  lemma CommitStopsAcks(nd: Node, id: nat)
    ensures var nd' := StopAcks(nd, id);
      && nd' == nd.(ackSender := nd'.ackSender) && !(Sending(nd') && nd'.ackSender.requestId == id)
      && (!(nd.ackSender.active && nd.ackSender.requestId == id) ==> nd' == nd)
  {
  }

  lemma CommitHeardLaw(nd: Node, id: nat, name: Name, version: nat)
    ensures var nd' := HandleCommit(nd, JoinCommit(id, name, version));
      && nd'.lastSeen == (if version > nd.lastSeen then version else nd.lastSeen)
      && (version > nd.lastSeen ==> Empty(nd'.joins.joins))
      && !(Sending(nd') && nd'.ackSender.requestId == id)
      && (!(nd.ackSender.active && nd.ackSender.requestId == id) ==> nd'.ackSender == nd.ackSender)
      && (!(nd.inflight.active && nd.inflight.requestId == id) ==>
            && InCache(nd'.joins.completed, name) && OnlyCleared(nd'.joins.joins, nd.joins.joins)
            && nd' == nd.(lastSeen := nd'.lastSeen, joins := nd'.joins, ackSender := nd'.ackSender))
  {
    CommitLearnt(nd, id, name, version);
    var nd1 := LearnCommit(nd, JoinCommit(id, name, version));
    var mine := nd1.inflight.active && nd1.inflight.requestId == id;
    CommitStopsAcks(if mine then CompleteViaCommit(nd1) else nd1, id);
    if version > nd.lastSeen { RemovedStaysEmpty(nd1.joins, nd1.inflight.joiner.name); }
  }

  lemma RemovedStaysEmpty(joins: JoinState, name: Name)
    requires Empty(joins.joins)
    ensures Empty(Remove(joins, name).0.joins)
  {
  }

  /** Exactly the entries older than the time to live are forgotten. */
  lemma PruneForgets(nd: Node, now: int)
    ensures var nd' := PruneTick(nd, now);
      && nd' == nd.(joins := nd.joins.(joins := nd'.joins.joins)) && |nd'.joins.joins| == |nd.joins.joins|
      && forall i | 0 <= i < |nd.joins.joins| ::
           nd'.joins.joins[i] ==
             if nd.joins.joins[i].Some? && now - nd.joins.joins[i].value.lastSeen <= JOIN_PENDING_TTL_S
             then nd.joins.joins[i] else None
  {
  }

  /** A token received is stored as it came, and held by a member; a later version on it is remembered and empties
      the table. */
  lemma TokenTaken(nd: Node, t: Token)
    ensures var nd' := ReceiveToken(nd, t);
      && nd'.tokenIn == t && nd'.haveToken == (nd.haveToken || nd.joined)
      && nd' == nd.(tokenIn := t, haveToken := nd'.haveToken, lastSeen := nd'.lastSeen, joins := nd'.joins)
      && (if nd.joined && t.version > nd.lastSeen then nd'.lastSeen == t.version && Empty(nd'.joins.joins)
          else nd'.lastSeen == nd.lastSeen && nd'.joins == nd.joins)
      && nd'.joins.completed == nd.joins.completed && |nd'.joins.joins| == |nd.joins.joins|
  {
    DropAllEmpties(nd.joins);
  }

  /** On a commit of the very join in flight the joiner becomes the predecessor, the successor stays, and the
      join is over without another commit. */
  lemma CommitFinishes(nd: Node, id: nat, name: Name, version: nat)
    requires nd.inflight.active && nd.inflight.requestId == id
    ensures var nd' := HandleCommit(nd, JoinCommit(id, name, version));
      && !nd'.inflight.active && !nd'.inflight.gotPrev && !nd'.inflight.gotJoiner
      && nd'.prev == Route(nd.inflight.joiner.name, nd.inflight.joiner.port) && nd'.next == nd.next
      && nd'.tokenIn == nd.tokenIn.(version := nd'.lastSeen) && nd'.haveToken == nd.haveToken
      && InCache(nd'.joins.completed, nd.inflight.joiner.name)
  {
    CommitLearnt(nd, id, name, version);
    var nd1 := LearnCommit(nd, JoinCommit(id, name, version));
    Recorded(Remove(nd1.joins, nd1.inflight.joiner.name).0.completed, nd1.inflight.joiner.requestId,
      nd1.inflight.joiner.name);
    CommitStopsAcks(CompleteViaCommit(nd1), id);
  }

  /** An answer stops the timer exactly when it names this node and the request it is acknowledging. */
  lemma AnswerHeard(nd: Node, id: nat, to: Name)
    ensures var nd' := HandleAckAck(nd, JoinAckAck(id, to));
      if to == nd.current.name && nd.ackSender.active && nd.ackSender.requestId == id
      then nd' == nd.(ackSender := nd'.ackSender) && !Sending(nd')
      else nd' == nd
  {
  }

  /** A member without a token makes the first one, empty and of its own version; a send that has returned leaves
      neither token nor contents behind. */
  lemma TokenMadeAndGone(nd: Node)
    ensures var nd' := InitialToken(nd);
      if nd.joined && !nd.haveToken
      then nd'.haveToken && nd'.tokenIn.isEmpty && nd'.tokenIn.version == nd.lastSeen
           && nd' == nd.(haveToken := true, tokenIn := nd'.tokenIn)
      else nd' == nd
    ensures var nd' := EndForward(nd);
      && !nd'.haveToken && !nd'.sending && nd'.tokenIn == ZERO_TOKEN
      && nd' == nd.(haveToken := false, sending := false, tokenIn := nd'.tokenIn)
  {
  }
}
