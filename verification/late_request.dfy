/** A join request handled after its join has completed: a run in which the token holder starts a join for a
    member, and what becomes of the ring. */
module LateRequest {
  import opened Base
  import opened JoinTable
  import opened JoinTableLaws
  import opened NodeModel
  import opened RingProtocol
  import opened RingInvariant
  import opened RingHandlers
  import opened RingTheorems
  import opened RingRuns

  // ------------------------------------------------------------------ steps

  /** A step that neither uses the token nor receives it. */
  lemma Plain(g: State, l: Label) returns (h: State)
    requires Reached(g) && Enabled(g, l) && !l.UseToken? && !l.TokenArrives?
    ensures Reached(h) && h == Apply(g, l) && h.transit == g.transit
    ensures h.nodes == g.nodes[l.n := LocalStep(g, l).0] && h.net == g.net + Datagrams(LocalStep(g, l).1)
  {
    h := Apply(g, l);
    ReachedNext(g, l);
    PlainApply(g, l);
  }

  // ------------------------------------------------------- one pending join

  function OnePending(e: PendingJoin): JoinState { EmptyState().(joins := EmptyState().joins[0 := Some(e)]) }

  lemma EmptyTable()
    ensures Used(EmptyState().joins) == 0
    ensures forall name :: Remove(EmptyState(), name) == (EmptyState(), false)
    ensures ClearPending(EmptyState()) == EmptyState()
  {
    UsedBounds(EmptyState().joins);
  }

  lemma AddsFirst(r: Request, ip: nat, now: int)
    ensures Add(EmptyState(), r, ip, now) == (OnePending(PendingJoin(r.requestId, r.name, r.port, ip, now)), true)
  {
    EmptyTable();
  }

  lemma PopsOne(e: PendingJoin)
    ensures Used(OnePending(e).joins) > 0 && Pop(OnePending(e)) == (EmptyState(), Some(e))
  {
    EmptyTable();
    var s := OnePending(e).joins;
    UsedUpdate(EmptyState().joins, 0, Some(e));
    PopAccounting(OnePending(e));
    assert s[0 := None] == EmptyState().joins;
  }

  lemma RecordsFirst(name: Name, requestId: nat)
    ensures MarkCompletedAndPrunePending(EmptyState(), name, requestId) ==
      EmptyState().(completed := [CompletedJoin(requestId, name)])
    ensures RecordCompleted(EmptyState(), requestId, name) ==
      EmptyState().(completed := [CompletedJoin(requestId, name)])
  {
    EmptyTable();
    assert [] + [CompletedJoin(requestId, name)] == [CompletedJoin(requestId, name)];
  }

  // ------------------------------------------------------------ the four nodes

  predicate Four(c: Name, x: Name, p: Name, j: Name) {
    c != x && c != p && c != j && x != p && x != j && p != j
  }

  function At(n: Name): Route { Route(n, 0) }

  const IDLE := Inflight(false, 0, PendingJoin(0, "", 0, 0, 0), "", false, false, 0, 0)

  const QUIET := AckSender(false, 0, Route("", 0), 0, 0, false)

  function FirstNode(n: Name, prev: Name, next: Name, id: nat, token: bool): Node {
    Node(At(n), At(prev), At(next), id == 0, 0, EmptyState(), IDLE, QUIET,
         NodeModel.RequestTimer.RequestTimer(id, 0, 0),
         Token("", "", "", 0, true), token, Token("", "", "", 0, true), false, false)
  }

  /** The ring c, x, p with the token at c, and j outside. */
  function Start(c: Name, x: Name, p: Name, j: Name): State {
    State(map[c := FirstNode(c, p, x, 0, true), x := FirstNode(x, c, p, 0, false),
              p := FirstNode(p, x, c, 0, false), j := FirstNode(j, j, j, 1, false)],
          map[c := 0, x := 0, p := 0, j := 0], map[c := 0, x := 0, p := 0, j := 1], {}, None, [c, x, p], [])
  }

  lemma StartIsRing(c: Name, x: Name, p: Name, j: Name)
    requires Four(c, x, p, j)
    ensures IsRing(Start(c, x, p, j), [c, x, p])
  {
    var g, ring := Start(c, x, p, j), [c, x, p];
    forall i: nat | i < 3 ensures g.nodes[ring[i]].next == RouteTo(g, NextIn(ring, i)) {
      assert i == 0 || i == 1 || i == 2;
    }
    forall i: nat | i < 3 ensures g.nodes[ring[i]].prev == RouteTo(g, PrevIn(ring, i)) {
      assert i == 0 || i == 1 || i == 2;
    }
  }

  lemma StartIsProper(c: Name, x: Name, p: Name, j: Name)
    requires Four(c, x, p, j)
    ensures Init(Start(c, x, p, j))
  {
    var g := Start(c, x, p, j);
    StartIsRing(c, x, p, j);
    StartSize(c, x, p, j);
    forall n | n in g.nodes ensures InitNode(g, n, g.nodes[n]) { StartNode(c, x, p, j, n); }
  }

  lemma StartSize(c: Name, x: Name, p: Name, j: Name)
    requires Four(c, x, p, j)
    ensures var g := Start(c, x, p, j);
      g.nodes.Keys == g.ports.Keys == g.ids.Keys == {c, x, p, j} && |g.nodes.Keys| == 4 && DistinctIds(g.ids)
  {
    assert |{c, x, p, j}| == 4;
  }

  lemma StartNode(c: Name, x: Name, p: Name, j: Name, n: Name)
    requires Four(c, x, p, j) && n in {c, x, p, j}
    ensures InitNode(Start(c, x, p, j), n, Start(c, x, p, j).nodes[n])
  {
  }

  // ---------------------------------------------------- what each node does

  function Req(j: Name): Request { Request(j, 1, 0) }

  function Entry(j: Name): PendingJoin { PendingJoin(1, j, 0, 0, 1) }

  function Accept(c: Name, p: Name, j: Name): Msg { JoinAccept(1, At(j), At(c), At(p)) }

  function Asking(j: Name): Node {
    FirstNode(j, j, j, 1, false).(request := NodeModel.RequestTimer.RequestTimer(1, 1, 1))
  }

  lemma Asks(j: Name)
    ensures RequestTick(FirstNode(j, j, j, 1, false), 1) == (Asking(j), [Broadcast(JoinRequest(Req(j)))], true)
  {
  }

  function WithEntry(nd: Node, j: Name): Node { nd.(joins := OnePending(Entry(j))) }

  lemma TakesRequest(nd: Node, j: Name)
    requires nd.current.name != j && !nd.inflight.active && nd.joins == EmptyState()
    ensures HandleRequest(nd, Req(j), 0, 1) == WithEntry(nd, j)
  {
    AddsFirst(Req(j), 0, 1);
  }

  function Coordinating(c: Name, x: Name, p: Name, j: Name, gotJoiner: bool): Node {
    FirstNode(c, p, x, 0, true).(inflight := Inflight(true, 1, Entry(j), p, false, gotJoiner, 1, 1))
  }

  lemma StartsTheJoin(c: Name, x: Name, p: Name, j: Name)
    requires Four(c, x, p, j)
    ensures var (nd, out) := HandleToken(WithEntry(FirstNode(c, p, x, 0, true), j), 1);
      && nd == Coordinating(c, x, p, j, false)
      && |out| == 2 && out[0] == Unicast(At(j), Accept(c, p, j)) && out[1] == Unicast(At(p), Accept(c, p, j))
  {
    PopsOne(Entry(j));
    var was := WithEntry(FirstNode(c, p, x, 0, true), j);
    assert was.(joins := EmptyState()) == FirstNode(c, p, x, 0, true);
    var nd := StartInflight(FirstNode(c, p, x, 0, true), Entry(j));
    assert HandleToken(was, 1) == InflightTick(nd, 1);
    FirstTick(nd);
    assert InflightTick(nd, 1).0 == Coordinating(c, x, p, j, false);
    assert AcceptMsg(nd) == Accept(c, p, j) && JoinerRoute(nd.inflight.joiner) == At(j) && nd.prev == At(p);
  }

  lemma FirstTick(nd: Node)
    requires nd.inflight.active && !nd.inflight.gotPrev && !nd.inflight.gotJoiner
    requires nd.inflight.lastSent == 0 && nd.inflight.retries == 0
    ensures var (nd', out) := InflightTick(nd, 1);
      && nd' == nd.(inflight := nd.inflight.(lastSent := 1, retries := 1))
      && |out| == 2 && out[0] == Unicast(JoinerRoute(nd.inflight.joiner), AcceptMsg(nd))
      && out[1] == Unicast(nd.prev, AcceptMsg(nd))
  {
  }

  lemma JoinerApplies(c: Name, p: Name, j: Name)
    ensures var (nd, out) := HandleAccept(Asking(j), Accept(c, p, j), false, 1);
      && nd.joined && !nd.sending && nd.current == At(j) && out == [Unicast(At(c), JoinAck(1, j))]
  {
  }

  lemma PredecessorApplies(c: Name, x: Name, p: Name, j: Name)
    requires Four(c, x, p, j)
    ensures var (nd, out) := HandleAccept(FirstNode(p, x, c, 0, false), Accept(c, p, j), false, 1);
      && nd.joined && !nd.sending && nd.current == At(p) && out == [Unicast(At(c), JoinAck(1, p))]
  {
  }

  lemma HearsJoiner(c: Name, x: Name, p: Name, j: Name)
    requires Four(c, x, p, j)
    ensures HandleAck(Coordinating(c, x, p, j, false), JoinAck(1, j)).0 == Coordinating(c, x, p, j, true)
    ensures forall q | q in HandleAck(Coordinating(c, x, p, j, false), JoinAck(1, j)).1 :: q.msg.JoinAckAck?
  {
  }

  /** With both acknowledgements in the join completes; the table is empty and the version is 1. */
  lemma CompletesTheJoin(c: Name, x: Name, p: Name, j: Name)
    requires Four(c, x, p, j)
    ensures var nd := HandleAck(Coordinating(c, x, p, j, true), JoinAck(1, p)).0;
      && TokenReady(nd) && nd.current == At(c) && nd.next == At(x) && nd.joins.joins == EmptyState().joins
      && !nd.sending && !nd.haveCli && nd.lastSeen == 1 && nd.tokenIn == Token("", "", "", 1, true)
  {
    RecordsFirst(j, 1);
    var nd := Confirm(Coordinating(c, x, p, j, true), p);
    assert nd.inflight.gotPrev && nd.inflight.gotJoiner;
    assert Remove(nd.joins, j).0 == EmptyState() by { EmptyTable(); }
  }

  lemma ForwardsVersion1(nd: Node)
    requires TokenReady(nd) && nd.joins.joins == EmptyState().joins && !nd.haveCli
    requires nd.tokenIn == Token("", "", "", 1, true)
    ensures HandleToken(nd, 1) == (nd.(sending := true), [Unicast(nd.next, TokenMsg(Token("", "", "", 1, true)))])
  {
    EmptyTable();
  }

  /** The node that was not part of the join learns of it from the token alone. */
  function Holding(c: Name, x: Name, p: Name): Node {
    FirstNode(x, c, p, 0, false).(tokenIn := Token("", "", "", 1, true), lastSeen := 1, haveToken := true)
  }

  lemma ReceivesVersion1(c: Name, x: Name, p: Name)
    ensures ReceiveToken(FirstNode(x, c, p, 0, false), Token("", "", "", 1, true)) == Holding(c, x, p)
  {
    EmptyTable();
  }

  // -------------------------------------------------------------- the run

  /** The states of the four nodes. */
  ghost predicate Nodes(g: State, c: Node, x: Node, p: Node, j: Node) {
    && c.current.name in g.nodes && x.current.name in g.nodes && p.current.name in g.nodes && j.current.name in g.nodes
    && g.nodes[c.current.name] == c && g.nodes[x.current.name] == x
    && g.nodes[p.current.name] == p && g.nodes[j.current.name] == j
  }

  lemma FirstNodes(c: Name, x: Name, p: Name, j: Name)
    requires Four(c, x, p, j)
    ensures var g := Start(c, x, p, j);
      && Nodes(g, FirstNode(c, p, x, 0, true), FirstNode(x, c, p, 0, false), FirstNode(p, x, c, 0, false),
          FirstNode(j, j, j, 1, false))
      && g.transit == None
  {
  }

  /** j asks. */
  lemma Asked(c: Name, x: Name, p: Name, j: Name) returns (g: State)
    requires Four(c, x, p, j)
    ensures Reached(g) && g.transit == None && Broadcast(JoinRequest(Req(j))) in g.net
    ensures Nodes(g, FirstNode(c, p, x, 0, true), FirstNode(x, c, p, 0, false), FirstNode(p, x, c, 0, false), Asking(j))
  {
    var g0 := Start(c, x, p, j);
    StartIsProper(c, x, p, j);
    ReachedStart(g0);
    FirstNodes(c, x, p, j);
    g := SendsRequest(g0, c, x, p, j);
  }

  lemma SendsRequest(g: State, c: Name, x: Name, p: Name, j: Name) returns (h: State)
    requires Four(c, x, p, j) && Reached(g) && g.transit == None
    requires Nodes(g, FirstNode(c, p, x, 0, true), FirstNode(x, c, p, 0, false), FirstNode(p, x, c, 0, false),
      FirstNode(j, j, j, 1, false))
    ensures Reached(h) && h.transit == None && Broadcast(JoinRequest(Req(j))) in h.net
    ensures Nodes(h, FirstNode(c, p, x, 0, true), FirstNode(x, c, p, 0, false), FirstNode(p, x, c, 0, false), Asking(j))
  {
    Asks(j);
    h := Plain(g, Label.RequestTimer(j, 1));
  }

  /** The request reaches the holder c. */
  lemma Pending(c: Name, x: Name, p: Name, j: Name) returns (g: State)
    requires Four(c, x, p, j)
    ensures Reached(g) && g.transit == None && Broadcast(JoinRequest(Req(j))) in g.net
    ensures Nodes(g, WithEntry(FirstNode(c, p, x, 0, true), j), FirstNode(x, c, p, 0, false),
                  FirstNode(p, x, c, 0, false), Asking(j))
  {
    var g1 := Asked(c, x, p, j);
    TakesRequest(FirstNode(c, p, x, 0, true), j);
    g := Plain(g1, Deliver(c, Broadcast(JoinRequest(Req(j))), false, 0, 1));
  }

  /** Using the token without forwarding it. */
  lemma StartsOnly(g: State, l: Label) returns (h: State)
    requires Reached(g) && Enabled(g, l) && l.UseToken? && StartsFresh(g, l) && !LocalStep(g, l).0.sending
    ensures Reached(h) && h == Apply(g, l) && h.transit == g.transit
    ensures h.nodes == g.nodes[l.n := LocalStep(g, l).0] && h.net == g.net + Datagrams(LocalStep(g, l).1)
  {
    h := Apply(g, l);
    ReachedNext(g, l);
  }

  /** c starts the join; the accepts are on the way. */
  lemma Started(c: Name, x: Name, p: Name, j: Name) returns (g: State)
    requires Four(c, x, p, j)
    ensures Reached(g) && g.transit == None && Broadcast(JoinRequest(Req(j))) in g.net
    ensures Unicast(At(j), Accept(c, p, j)) in g.net && Unicast(At(p), Accept(c, p, j)) in g.net
    ensures Nodes(g, Coordinating(c, x, p, j, false), FirstNode(x, c, p, 0, false), FirstNode(p, x, c, 0, false),
      Asking(j))
  {
    var g1 := Pending(c, x, p, j);
    PopsOne(Entry(j));
    StartsTheJoin(c, x, p, j);
    var out := LocalStep(g1, UseToken(c, 1)).1;
    assert out[0] in out && out[1] in out;
    g := StartsOnly(g1, UseToken(c, 1));
  }

  /** j applies the accept and acknowledges it. */
  lemma JoinerIn(c: Name, x: Name, p: Name, j: Name) returns (g: State, jn: Node)
    requires Four(c, x, p, j)
    ensures Reached(g) && g.transit == None && Broadcast(JoinRequest(Req(j))) in g.net
    ensures Unicast(At(p), Accept(c, p, j)) in g.net && Unicast(At(c), JoinAck(1, j)) in g.net
    ensures jn.joined && !jn.sending && jn.current == At(j)
    ensures Nodes(g, Coordinating(c, x, p, j, false), FirstNode(x, c, p, 0, false), FirstNode(p, x, c, 0, false), jn)
  {
    var g1 := Started(c, x, p, j);
    JoinerApplies(c, p, j);
    var l := Deliver(j, Unicast(At(j), Accept(c, p, j)), false, 0, 1);
    jn := LocalStep(g1, l).0;
    g := Plain(g1, l);
  }

  /** p applies it too. */
  lemma PredecessorIn(c: Name, x: Name, p: Name, j: Name) returns (g: State, pn: Node, jn: Node)
    requires Four(c, x, p, j)
    ensures Reached(g) && g.transit == None && Broadcast(JoinRequest(Req(j))) in g.net
    ensures Unicast(At(c), JoinAck(1, p)) in g.net && Unicast(At(c), JoinAck(1, j)) in g.net
    ensures jn.joined && !jn.sending && jn.current == At(j) && pn.joined && !pn.sending && pn.current == At(p)
    ensures Nodes(g, Coordinating(c, x, p, j, false), FirstNode(x, c, p, 0, false), pn, jn)
  {
    var g1;
    g1, jn := JoinerIn(c, x, p, j);
    PredecessorApplies(c, x, p, j);
    var l := Deliver(p, Unicast(At(p), Accept(c, p, j)), false, 0, 1);
    pn := LocalStep(g1, l).0;
    g := Plain(g1, l);
  }

  /** The node c once the join is complete. */
  function Completed(c: Name, x: Name, p: Name, j: Name): Node {
    HandleAck(Coordinating(c, x, p, j, true), JoinAck(1, p)).0
  }

  /** c hears both acknowledgements, and the join is complete. */
  lemma JoinComplete(c: Name, x: Name, p: Name, j: Name) returns (g: State, pn: Node, jn: Node)
    requires Four(c, x, p, j)
    ensures Reached(g) && g.transit == None && Broadcast(JoinRequest(Req(j))) in g.net
    ensures jn.joined && jn.current == At(j) && pn.current == At(p)
    ensures Completed(c, x, p, j).current == At(c) && Completed(c, x, p, j).lastSeen == 1
    ensures TokenReady(Completed(c, x, p, j))
    ensures Nodes(g, Completed(c, x, p, j), FirstNode(x, c, p, 0, false), pn, jn)
  {
    var g1;
    g1, pn, jn := PredecessorIn(c, x, p, j);
    HearsJoiner(c, x, p, j);
    var g2 := Plain(g1, Deliver(c, Unicast(At(c), JoinAck(1, j)), false, 0, 1));
    CompletesTheJoin(c, x, p, j);
    g := LastAck(g2, c, x, p, j, pn, jn);
  }

  lemma LastAck(g: State, c: Name, x: Name, p: Name, j: Name, pn: Node, jn: Node) returns (h: State)
    requires Four(c, x, p, j) && Reached(g) && g.transit == None && pn.current == At(p) && jn.current == At(j)
    requires Broadcast(JoinRequest(Req(j))) in g.net && Unicast(At(c), JoinAck(1, p)) in g.net
    requires Nodes(g, Coordinating(c, x, p, j, true), FirstNode(x, c, p, 0, false), pn, jn)
    requires Completed(c, x, p, j).current == At(c)
    ensures Reached(h) && h.transit == None && Broadcast(JoinRequest(Req(j))) in h.net
    ensures Nodes(h, Completed(c, x, p, j), FirstNode(x, c, p, 0, false), pn, jn)
  {
    h := Plain(g, Deliver(c, Unicast(At(c), JoinAck(1, p)), false, 0, 1));
  }

  /** The token leaves c with version 1 and reaches x, which has heard of no join. */
  lemma TokenPassed(g: State, c: Name, x: Name, p: Name, j: Name, pn: Node, jn: Node) returns (h: State)
    requires Four(c, x, p, j) && Reached(g) && g.transit == None && pn.current == At(p) && jn.current == At(j)
    requires Broadcast(JoinRequest(Req(j))) in g.net && Completed(c, x, p, j).current == At(c)
    requires Nodes(g, Completed(c, x, p, j), FirstNode(x, c, p, 0, false), pn, jn)
    ensures Reached(h) && h.transit == Some(Unicast(At(x), TokenMsg(Token("", "", "", 1, true))))
    ensures Broadcast(JoinRequest(Req(j))) in h.net
    ensures Nodes(h, Completed(c, x, p, j).(sending := true), FirstNode(x, c, p, 0, false), pn, jn)
  {
    CompletesTheJoin(c, x, p, j);
    ForwardsVersion1(Completed(c, x, p, j));
    EmptyTable();
    h := ForwardsOnly(g, UseToken(c, 1));
  }

  lemma ForwardsOnly(g: State, l: Label) returns (h: State)
    requires Reached(g) && Enabled(g, l) && l.UseToken? && StartsFresh(g, l)
    requires LocalStep(g, l).0.sending && |LocalStep(g, l).1| == 1
    ensures Reached(h) && h == Apply(g, l) && h.transit == Some(LocalStep(g, l).1[0])
    ensures h.nodes == g.nodes[l.n := LocalStep(g, l).0] && g.net <= h.net
  {
    h := Apply(g, l);
    ReachedNext(g, l);
  }

  lemma TokenReceived(g: State, c: Name, x: Name, p: Name, j: Name, cn: Node, pn: Node, jn: Node) returns (h: State)
    requires Four(c, x, p, j) && Reached(g) && cn.current == At(c) && pn.current == At(p) && jn.current == At(j)
    requires g.transit == Some(Unicast(At(x), TokenMsg(Token("", "", "", 1, true))))
    requires Broadcast(JoinRequest(Req(j))) in g.net && Nodes(g, cn, FirstNode(x, c, p, 0, false), pn, jn)
    ensures Reached(h) && h.transit == None && Broadcast(JoinRequest(Req(j))) in h.net
    ensures Nodes(h, cn, Holding(c, x, p), pn, jn)
  {
    ReceivesVersion1(c, x, p);
    h := ArrivesOnly(g, TokenArrives(x));
  }

  lemma ArrivesOnly(g: State, l: Label) returns (h: State)
    requires Reached(g) && Enabled(g, l) && l.TokenArrives? && g.transit.value.msg.TokenMsg?
    ensures Reached(h) && h == Apply(g, l) && h.transit == None && h.net == g.net
    ensures h.nodes == g.nodes[l.n := ReceiveToken(g.nodes[l.n], g.transit.value.msg.token)]
  {
    ArriveApply(g, l);
    ReachedNext(g, l);
    h := Apply(g, l);
    assert h.net == g.net + Datagrams([]);
  }

  /** x takes the old request into its table: it is about to start a join for a member. */
  lemma LateRequestReached(c: Name, x: Name, p: Name, j: Name) returns (g: State)
    requires Four(c, x, p, j)
    ensures Reached(g) && c in g.nodes && !g.nodes[c].sending && j in g.nodes && g.nodes[j].joined
    ensures Enabled(g, UseToken(x, 1)) && g.nodes[x] == WithEntry(Holding(c, x, p), j)
    ensures StartsJoin(g, UseToken(x, 1)) && !StartsFresh(g, UseToken(x, 1))
  {
    var g1, cn, pn, jn := TokenAtX(c, x, p, j);
    g := TakesLate(g1, c, x, p, j, cn, pn, jn);
  }

  lemma TokenAtX(c: Name, x: Name, p: Name, j: Name) returns (g: State, cn: Node, pn: Node, jn: Node)
    requires Four(c, x, p, j)
    ensures Reached(g) && Broadcast(JoinRequest(Req(j))) in g.net && Nodes(g, cn, Holding(c, x, p), pn, jn)
    ensures cn.current == At(c) && pn.current == At(p) && jn.current == At(j) && jn.joined && !cn.sending
  {
    var g1;
    g1, pn, jn := JoinComplete(c, x, p, j);
    var g2 := TokenPassed(g1, c, x, p, j, pn, jn);
    var was := Completed(c, x, p, j).(sending := true);
    var g3 := TokenReceived(g2, c, x, p, j, was, pn, jn);
    cn := EndForward(was);
    g := SendHasReturned(g3, c, x, p, j, was, pn, jn);
  }

  lemma SendHasReturned(g: State, c: Name, x: Name, p: Name, j: Name, cn: Node, pn: Node, jn: Node) returns (h: State)
    requires Four(c, x, p, j) && Reached(g) && cn.current == At(c) && pn.current == At(p) && jn.current == At(j)
    requires cn.sending && Broadcast(JoinRequest(Req(j))) in g.net && Nodes(g, cn, Holding(c, x, p), pn, jn)
    ensures Reached(h) && Broadcast(JoinRequest(Req(j))) in h.net && Nodes(h, EndForward(cn), Holding(c, x, p), pn, jn)
  {
    h := Plain(g, SendReturns(c));
  }

  lemma TakesLate(g: State, c: Name, x: Name, p: Name, j: Name, cn: Node, pn: Node, jn: Node) returns (h: State)
    requires Four(c, x, p, j) && Reached(g) && cn.current == At(c) && pn.current == At(p) && jn.current == At(j)
    requires Broadcast(JoinRequest(Req(j))) in g.net && Nodes(g, cn, Holding(c, x, p), pn, jn) && jn.joined
    requires !cn.sending
    ensures Reached(h) && c in h.nodes && !h.nodes[c].sending && j in h.nodes && h.nodes[j].joined
    ensures Enabled(h, UseToken(x, 1)) && h.nodes[x] == WithEntry(Holding(c, x, p), j)
    ensures StartsJoin(h, UseToken(x, 1)) && !StartsFresh(h, UseToken(x, 1))
  {
    TakesRequest(Holding(c, x, p), j);
    h := Plain(g, Deliver(x, Broadcast(JoinRequest(Req(j))), false, 0, 1));
    IsLate(h, c, x, p, j);
  }

  lemma IsLate(h: State, c: Name, x: Name, p: Name, j: Name)
    requires x in h.nodes && h.nodes[x] == WithEntry(Holding(c, x, p), j) && j in h.nodes && h.nodes[j].joined
    ensures StartsJoin(h, UseToken(x, 1)) && !StartsFresh(h, UseToken(x, 1))
  {
    PopsOne(Entry(j));
  }

  // ------------------------------------------------- what a join for a member does

  /** The entry of a member that the holder is about to join. */
  ghost predicate StartsStale(g: State, n: Name, now: int, e: PendingJoin) {
    && Inv(g) && Enabled(g, UseToken(n, now)) && StartsJoin(g, UseToken(n, now))
    && Pop(g.nodes[n].joins).1 == Some(e) && e.name in g.nodes && g.nodes[e.name].joined
  }

  lemma StaleMember(g: State, n: Name, now: int, e: PendingJoin)
    requires StartsStale(g, n, now, e)
    ensures n == g.ring[0] && !Joining(g) && e.name in g.ring && e.name != n && e.requestId != 0
    ensures JoinerRoute(e) == RouteTo(g, e.name) && |g.ring| >= 2
    ensures g.nodes[n].prev == RouteTo(g, Last(g.ring)) && Last(g.ring) != n && Last(g.ring) in g.nodes
  {
    HolderIs(g, n);
    assert MemberOk(g, e.name, g.nodes[e.name]);
    var k := Oldest(g.nodes[n].joins.joins).value;
    assert PendingOk(g.ids, g.ports, n, e);
    assert PrevIn(g.ring, 0) == Last(g.ring);
  }

  /** The holder has recorded the join and keeps its routes; the accept is on its way to its predecessor. */
  ghost predicate StaleStarted(g: State, h: State, n: Name, e: PendingJoin) {
    && g.ring != [] && n in g.nodes && n in h.nodes && h.nodes == g.nodes[n := h.nodes[n]] && h.ports == g.ports
    && var nd := h.nodes[n];
      && nd.prev == g.nodes[n].prev && nd.next == g.nodes[n].next && nd.joined && nd.current == g.nodes[n].current
      && nd.inflight.active && nd.inflight.joiner == e && nd.inflight.expectedPrev == Last(g.ring)
      && Unicast(RouteTo(g, Last(g.ring)), AcceptMsg(nd)) in h.net
  }

  lemma StaleStarts(g: State, n: Name, now: int, e: PendingJoin)
    requires StartsStale(g, n, now, e)
    ensures StaleStarted(g, Apply(g, UseToken(n, now)), n, e)
  {
    StaleMember(g, n, now, e);
    var l := UseToken(n, now);
    var (nd, out) := LocalStep(g, l);
    assert Unicast(g.nodes[n].prev, AcceptMsg(nd)) in out;
    assert Apply(g, l) == Put(g, n, nd, out);
  }

  lemma JoinedJoiner(h: State, ring: seq<Name>, c: Name, p: Name, j: Name)
    requires SpliceUnderWay(h, ring, c, p, j) && h.nodes[j].joined
    ensures j != p && h.nodes[j].next.name == c
  {
  }

  /** Then the shape of a proper splice is lost at once: no ring of the other members makes it one. */
  lemma StaleJoinHasNoShape(g: State, n: Name, now: int, e: PendingJoin, ring: seq<Name>)
    requires StartsStale(g, n, now, e)
    ensures !SpliceUnderWay(Apply(g, UseToken(n, now)), ring, n, Last(g.ring), e.name)
  {
    StaleMember(g, n, now, e);
    StaleStarts(g, n, now, e);
    NoShape(g, Apply(g, UseToken(n, now)), n, e, ring);
  }

  lemma NoShape(g: State, h: State, n: Name, e: PendingJoin, ring: seq<Name>)
    requires RingOk(g) && !Joining(g) && n == g.ring[0] && |g.ring| >= 2 && StaleStarted(g, h, n, e)
    requires e.name in g.nodes && e.name != n && g.nodes[e.name].joined
    ensures !SpliceUnderWay(h, ring, n, Last(g.ring), e.name)
  {
    if SpliceUnderWay(h, ring, n, Last(g.ring), e.name) {
      JoinedJoiner(h, ring, n, Last(g.ring), e.name);
      NobodyElsePoints(g, n, e.name);
    }
  }

  /** The member ignores the accept: it is joined already. */
  lemma MemberIgnoresAccept(g: State, n: Name, now: int, e: PendingJoin, sent: bool, now': int)
    requires StartsStale(g, n, now, e)
    ensures var h := Apply(g, UseToken(n, now));
      && e.name in h.nodes && n in h.nodes
      && var (nd, out) := HandleAccept(h.nodes[e.name], AcceptMsg(h.nodes[n]), sent, now');
        out == [] && nd.prev == h.nodes[e.name].prev && nd.next == h.nodes[e.name].next
  {
    StaleMember(g, n, now, e);
    StaleStarts(g, n, now, e);
    assert g.nodes[e.name].current == RouteTo(g, e.name);
  }

  lemma AppliesTo(nd: Node, m: Msg, sent: bool, now: int)
    requires m.JoinAccept? && nd.joined && nd.current.name != m.newNode.name
    requires nd.current.name == m.prev.name && nd.next.name == m.before.name
    ensures var nd' := HandleAccept(nd, m, sent, now).0; nd'.next == m.newNode && nd'.joined
  {
  }

  /** Only the last of the ring points at its first. */
  lemma NobodyElsePoints(g: State, n: Name, q: Name)
    requires RingOk(g) && !Joining(g) && n == g.ring[0] && |g.ring| >= 2
    requires q in g.nodes && g.nodes[q].joined && q != Last(g.ring)
    ensures g.nodes[q].next.name != n
  {
    assert MemberOk(g, q, g.nodes[q]);
    var i :| 0 <= i < |g.ring| && g.ring[i] == q;
    assert g.nodes[g.ring[i]].next == RouteTo(g, NextIn(g.ring, i));
  }

  /** In a ring some joined node points at each. */
  lemma RingPointsAt(g: State, ring: seq<Name>, n: Name)
    requires IsRing(g, ring) && n in g.nodes && g.nodes[n].joined
    ensures exists q :: q in g.nodes && g.nodes[q].joined && g.nodes[q].next.name == n
  {
    assert n in ring;
    var i :| 0 <= i < |ring| && ring[i] == n;
    var k: nat := if i == 0 then |ring| - 1 else i - 1;
    assert ring[k] in ring;
    assert g.nodes[ring[k]].next == RouteTo(g, NextIn(ring, k));
    assert NextIn(ring, k) == n;
  }

  /** The predecessor has been led astray: it points at the member `j`, and nobody points at `n`. */
  ghost predicate Stranded(h: State, n: Name, p: Name, j: Name) {
    && n in h.nodes && h.nodes[n].joined && p in h.nodes && h.nodes[p].next.name == j
    && (forall q | q in h.nodes && h.nodes[q].joined :: h.nodes[q].next.name != n)
    && forall ring :: !IsRing(h, ring)
  }

  lemma Strands(g: State, h: State, h2: State, n: Name, e: PendingJoin)
    requires RingOk(g) && !Joining(g) && n == g.ring[0] && |g.ring| >= 2 && StaleStarted(g, h, n, e)
    requires var p := Last(g.ring);
      && p in g.nodes && p != n && e.name != n && p in h2.nodes && h2.nodes == h.nodes[p := h2.nodes[p]]
      && h2.nodes[p].next.name == e.name
    ensures Stranded(h2, n, Last(g.ring), e.name)
  {
    forall q | q in h2.nodes && h2.nodes[q].joined ensures h2.nodes[q].next.name != n {
      if q != Last(g.ring) { NobodyElsePoints(g, n, q); }
    }
    forall ring ensures !IsRing(h2, ring) {
      if IsRing(h2, ring) { RingPointsAt(h2, ring, n); }
    }
  }

  function StaleAccept(g: State, h: State, n: Name, sent: bool, ip: nat, now: int): Label
    requires g.ring != [] && n in h.nodes
  {
    Deliver(Last(g.ring), Unicast(RouteTo(g, Last(g.ring)), AcceptMsg(h.nodes[n])), sent, ip, now)
  }

  lemma StaleAcceptApplies(g: State, h: State, n: Name, e: PendingJoin, sent: bool, ip: nat, now: int)
    requires RingOk(g) && !Joining(g) && n == g.ring[0] && |g.ring| >= 2 && StaleStarted(g, h, n, e)
    requires e.name != Last(g.ring) && Last(g.ring) != n && !g.nodes[Last(g.ring)].sending
    requires g.nodes[n].prev == RouteTo(g, Last(g.ring))
    ensures var p, l := Last(g.ring), StaleAccept(g, h, n, sent, ip, now);
      && Enabled(h, l) && p in h.nodes
      && p in Apply(h, l).nodes && Apply(h, l).nodes == h.nodes[p := Apply(h, l).nodes[p]]
      && Apply(h, l).nodes[p].next == JoinerRoute(e)
  {
    var p, l := Last(g.ring), StaleAccept(g, h, n, sent, ip, now);
    assert g.nodes[p].current == RouteTo(g, p) && g.nodes[n].current == RouteTo(g, n);
    assert g.nodes[g.ring[|g.ring| - 1]].next == RouteTo(g, NextIn(g.ring, |g.ring| - 1));
    assert MemberOk(g, p, g.nodes[p]);
    AppliesTo(h.nodes[p], AcceptMsg(h.nodes[n]), sent, now);
    PlainApply(h, l);
  }

  /** The predecessor does not: its `next` moves from the holder to the member, nobody points at the holder
      any more, and the joined nodes form no ring. */
  lemma StaleAcceptBreaksRing(g: State, n: Name, now: int, e: PendingJoin, sent: bool, ip: nat, now': int)
    requires StartsStale(g, n, now, e) && e.name != Last(g.ring) && !g.nodes[Last(g.ring)].sending
    ensures var h := Apply(g, UseToken(n, now));
      && n in h.nodes
      && var l := StaleAccept(g, h, n, sent, ip, now');
        Enabled(h, l) && Stranded(Apply(h, l), n, Last(g.ring), e.name)
  {
    StaleMember(g, n, now, e);
    StaleStarts(g, n, now, e);
    var h := Apply(g, UseToken(n, now));
    StaleAcceptApplies(g, h, n, e, sent, ip, now');
    Strands(g, h, Apply(h, StaleAccept(g, h, n, sent, ip, now')), n, e);
  }

  /** In `g` the holder x starts a join for the member j; c then points at j, and there is no ring. */
  ghost predicate LosesRing(g: State, c: Name, x: Name, j: Name) {
    && !StartsFresh(g, UseToken(x, 1)) && StartsStale(g, x, 1, Entry(j)) && g.ring != []
    && var h := Apply(g, UseToken(x, 1));
      && x in h.nodes && (forall ring :: !SpliceUnderWay(h, ring, x, Last(g.ring), j))
      && var l := StaleAccept(g, h, x, false, 0, 2); Enabled(h, l) && Stranded(Apply(h, l), x, c, j)
  }

  /** From the start, then, with only that one join for a member: the ring is lost. */
  lemma LateRequestBreaksRing(c: Name, x: Name, p: Name, j: Name)
    requires Four(c, x, p, j)
    ensures exists g :: Reached(g) && LosesRing(g, c, x, j)
  {
    var g := LateRequestReached(c, x, p, j);
    ReachedInv(g);
    PopsOne(Entry(j));
    assert StartsStale(g, x, 1, Entry(j));
    StaleMember(g, x, 1, Entry(j));
    assert Last(g.ring) == c;
    StaleAcceptBreaksRing(g, x, 1, Entry(j), false, 0, 2);
    forall ring ensures !SpliceUnderWay(Apply(g, UseToken(x, 1)), ring, x, Last(g.ring), j) {
      StaleJoinHasNoShape(g, x, 1, Entry(j), ring);
    }
  }
}
