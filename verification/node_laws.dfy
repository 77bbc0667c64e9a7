/** One node alone, against any sequence of messages and timer ticks whatever they say. */
module NodeLaws {
  import opened JoinTable
  import opened NodeModel

  datatype Event =
    | OnRequestTimer(now: int)
    | OnMessage(m: Msg, sent: bool, ip: nat, now: int)
    | OnMaybeComplete
    | OnInflightTimer(now: int)
    | OnAckTimer(now: int)
    | OnPruneTimer(now: int)
    | OnInitialToken
    | OnUseToken(now: int)
    | OnSendReturns
    | OnCliInput(token: Token)

  function React(nd: Node, e: Event): Node {
    match e
    case OnRequestTimer(now) => RequestTick(nd, now).0
    case OnMessage(m, sent, ip, now) => ReactToMessage(nd, m, sent, ip, now)
    case OnMaybeComplete => TryComplete(nd).0
    case OnInflightTimer(now) => InflightTick(nd, now).0
    case OnAckTimer(now) => AckSenderTick(nd, now).0
    case OnPruneTimer(now) => PruneTick(nd, now)
    case OnInitialToken => InitialToken(nd)
    case OnUseToken(now) => HandleToken(nd, now).0
    case OnSendReturns => EndForward(nd)
    case OnCliInput(t) => ReadCli(nd, t)
  }

  function ReactToMessage(nd: Node, m: Msg, sent: bool, ip: nat, now: int): Node {
    match m
    case TokenMsg(t) => ReceiveToken(nd, t)
    case JoinAccept(_, _, _, _) => HandleAccept(nd, m, sent, now).0
    case JoinAck(_, _) => HandleAck(nd, m).0
    case JoinAckAck(_, _) => HandleAckAck(nd, m)
    case JoinRequest(r) => HandleRequest(nd, r, ip, now)
    case JoinCommit(_, _, _) => HandleCommit(nd, m)
  }

  /** An active join means joined, holding the token, and waiting for the present predecessor,
      which counts as confirmed when it is the node itself; flags are set only while active. */
  ghost predicate LocalInv(nd: Node) {
    && (nd.inflight.active ==>
          && nd.joined && nd.haveToken && !nd.sending
          && nd.inflight.expectedPrev == nd.prev.name
          && (nd.prev.name == nd.current.name ==> nd.inflight.gotPrev))
    && (nd.inflight.gotPrev || nd.inflight.gotJoiner ==> nd.inflight.active)
    && !(nd.inflight.gotPrev && nd.inflight.gotJoiner)
    && (nd.sending ==> nd.joined && nd.haveToken)
  }

  /** What stays: identity, membership, and while a join is active its joiner, predecessor and confirmations. */
  ghost predicate Steady(nd: Node, nd': Node) {
    && nd'.current == nd.current && nd'.request.id == nd.request.id
    && (nd.joined ==> nd'.joined)
    && (nd.inflight.active && nd'.inflight.active ==>
          && nd'.inflight.joiner == nd.inflight.joiner && nd'.inflight.requestId == nd.inflight.requestId
          && nd'.inflight.expectedPrev == nd.inflight.expectedPrev && nd'.prev == nd.prev
          && (nd.inflight.gotPrev ==> nd'.inflight.gotPrev) && (nd.inflight.gotJoiner ==> nd'.inflight.gotJoiner))
  }

  /** The local invariant, but for confirmations just completed. */
  ghost predicate AlmostLocalInv(nd: Node) {
    && LocalInv(nd.(inflight := nd.inflight.(gotJoiner := false)))
    && (nd.inflight.gotJoiner ==> nd.inflight.active)
  }

  lemma CompleteLaw(nd: Node)
    requires AlmostLocalInv(nd)
    ensures LocalInv(TryComplete(nd).0) && Steady(nd, TryComplete(nd).0)
  {
  }

  lemma TickLaw(nd: Node, now: int)
    requires LocalInv(nd)
    ensures LocalInv(InflightTick(nd, now).0) && Steady(nd, InflightTick(nd, now).0)
  {
    CompleteLaw(nd);
  }

  lemma UseTokenLaw(nd: Node, now: int)
    requires LocalInv(nd) && !nd.sending
    ensures LocalInv(HandleToken(nd, now).0) && Steady(nd, HandleToken(nd, now).0)
  {
    var (joins, e) := Pop(nd.joins);
    if TokenReady(nd) && e.Some? {
      TickLaw(StartInflight(nd.(joins := joins), e.value), now);
    }
  }

  lemma AckLaw(nd: Node, m: Msg)
    requires LocalInv(nd) && m.JoinAck?
    ensures LocalInv(HandleAck(nd, m).0) && Steady(nd, HandleAck(nd, m).0)
  {
    if nd.inflight.active {
      CompleteLaw(Confirm(nd, m.from));
    }
  }

  lemma CommitLaw(nd: Node, m: Msg)
    requires LocalInv(nd) && m.JoinCommit?
    ensures LocalInv(HandleCommit(nd, m)) && Steady(nd, HandleCommit(nd, m))
  {
  }

  lemma AcceptLaw(nd: Node, m: Msg, sent: bool, now: int)
    requires LocalInv(nd) && !nd.sending && m.JoinAccept?
    ensures LocalInv(HandleAccept(nd, m, sent, now).0) && Steady(nd, HandleAccept(nd, m, sent, now).0)
  {
  }

  lemma MessageLaw(nd: Node, m: Msg, sent: bool, ip: nat, now: int)
    requires LocalInv(nd) && !nd.sending
    ensures LocalInv(ReactToMessage(nd, m, sent, ip, now)) && Steady(nd, ReactToMessage(nd, m, sent, ip, now))
  {
    match m
    case JoinAccept(_, _, _, _) => AcceptLaw(nd, m, sent, now);
    case JoinAck(_, _) => AckLaw(nd, m);
    case JoinCommit(_, _, _) => CommitLaw(nd, m);
    case _ =>
  }

  lemma ReactLaw(nd: Node, e: Event)
    requires LocalInv(nd) && (e.OnSendReturns? <==> nd.sending)
    ensures LocalInv(React(nd, e)) && Steady(nd, React(nd, e))
  {
    match e
    case OnMessage(m, sent, ip, now) => MessageLaw(nd, m, sent, ip, now);
    case OnMaybeComplete => CompleteLaw(nd);
    case OnInflightTimer(now) => TickLaw(nd, now);
    case OnUseToken(now) => UseTokenLaw(nd, now);
    case _ =>
  }

  ghost predicate Fresh(nd: Node) {
    !nd.inflight.active && !nd.inflight.gotPrev && !nd.inflight.gotJoiner && !nd.sending
  }

  function ReactAll(nd: Node, es: seq<Event>): Node
    decreases |es|
  {
    if es == [] then nd else ReactAll(React(nd, es[0]), es[1..])
  }

  /** A node in the send of the token sees no event but its return, and that only then. */
  predicate Schedulable(nd: Node, es: seq<Event>)
    decreases |es|
  {
    es == [] || ((es[0].OnSendReturns? <==> nd.sending) && Schedulable(React(nd, es[0]), es[1..]))
  }

  /** The local invariant survives any sequence of events, true or false messages alike,
      and a node that joined stays joined. */
  lemma {:induction false} LocalInvAlways(nd: Node, es: seq<Event>)
    requires LocalInv(nd) && Schedulable(nd, es)
    ensures LocalInv(ReactAll(nd, es)) && (nd.joined ==> ReactAll(nd, es).joined)
    decreases |es|
  {
    if es != [] {
      ReactLaw(nd, es[0]);
      LocalInvAlways(React(nd, es[0]), es[1..]);
    }
  }

  lemma FreshNodeStaysSound(nd: Node, es: seq<Event>)
    requires Fresh(nd) && Schedulable(nd, es)
    ensures LocalInv(ReactAll(nd, es))
  {
    LocalInvAlways(nd, es);
  }

  /** Only three things move a route: an accept that applies, this node's own completion,
      and the completion on a commit. */
  ghost predicate MayReroute(nd: Node, e: Event) {
    || (e.OnMessage? && e.m.JoinAccept? && ApplyAccept(nd, e.m).1)
    || (nd.inflight.active && !React(nd, e).inflight.active)
  }

  lemma RoutesStay(nd: Node, e: Event)
    requires LocalInv(nd) && (e.OnSendReturns? <==> nd.sending) && !MayReroute(nd, e)
    ensures React(nd, e).prev == nd.prev && React(nd, e).next == nd.next
  {
    match e
    case OnMessage(m, sent, ip, now) => MessageRoutes(nd, m, sent, ip, now);
    case _ =>
  }

  lemma MessageRoutes(nd: Node, m: Msg, sent: bool, ip: nat, now: int)
    requires LocalInv(nd) && !MayReroute(nd, OnMessage(m, sent, ip, now))
    ensures var nd' := ReactToMessage(nd, m, sent, ip, now); nd'.prev == nd.prev && nd'.next == nd.next
  {
    match m
    case JoinAccept(_, _, _, _) => AcceptRoutes(nd, m, sent, now);
    case JoinAck(_, _) => if nd.inflight.active { AckRoutes(nd, m); }
    case _ =>
  }

  lemma AcceptRoutes(nd: Node, m: Msg, sent: bool, now: int)
    requires m.JoinAccept? && !ApplyAccept(nd, m).1
    ensures HandleAccept(nd, m, sent, now).0.prev == nd.prev && HandleAccept(nd, m, sent, now).0.next == nd.next
  {
  }

  lemma AckRoutes(nd: Node, m: Msg)
    requires m.JoinAck? && nd.inflight.active && HandleAck(nd, m).0.inflight.active
    ensures HandleAck(nd, m).0.prev == nd.prev && HandleAck(nd, m).0.next == nd.next
  {
    if nd.inflight.requestId == m.requestId {
      assert HandleAck(nd, m).0 == TryComplete(Confirm(nd, m.from)).0;
      OnlyCompletionActs(Confirm(nd, m.from));
    }
  }

  lemma OnlyCompletionActs(nd: Node)
    requires TryComplete(nd).0.inflight.active
    ensures TryComplete(nd).0 == nd
  {
  }

  /** Everything acknowledgement `m` could tell this node is known already. */
  ghost predicate AckKnown(nd: Node, m: Msg)
    requires m.JoinAck?
  {
    nd.inflight.active && nd.inflight.requestId == m.requestId ==>
      && (m.from == nd.inflight.expectedPrev || m.from == nd.prev.name ==> nd.inflight.gotPrev)
      && (m.from == nd.inflight.joiner.name ==> nd.inflight.gotJoiner)
  }

  /** An acknowledgement heard once is known, and one that is known changes nothing. */
  lemma RepeatedAck(nd: Node, m: Msg)
    requires LocalInv(nd) && m.JoinAck?
    ensures AckKnown(HandleAck(nd, m).0, m)
    ensures AckKnown(nd, m) ==> HandleAck(nd, m).0 == nd
  {
    if AckKnown(nd, m) && nd.inflight.active && nd.inflight.requestId == m.requestId {
      assert Confirm(nd, m.from).inflight == nd.inflight;
      assert Confirm(nd, m.from) == nd;
    }
  }

  /** Nothing travels on the token, or only what is for this node. */
  predicate TokenFree(nd: Node) { nd.tokenIn.isEmpty || nd.tokenIn.receiver == nd.current.name }

  /** A failed send of the token keeps the token as it was received, to be tried again; an input it had
      attached is gone, and nothing else changes. */
  lemma FailedSendLosesInput(nd: Node)
    requires TokenReady(nd) && !nd.sending
    ensures var nd' := AbandonForward(BeginForward(nd).0);
      && TokenReady(nd') && nd'.tokenIn == nd.tokenIn
      && (nd.haveCli && TokenFree(nd) ==>
            && BeginForward(nd).1[0].msg.token.data == nd.cliPending.data
            && !nd'.haveCli && nd'.cliPending.data == "")
      && (!(nd.haveCli && TokenFree(nd)) ==> nd' == nd)
  {
    assert nd.(sending := true).(sending := false) == nd;
  }
}
