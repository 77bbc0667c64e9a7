/** Three entries of one name: a run in which every request is taken before any join has completed, and the
    holder still starts a join for a member. */
module ThirdCopy {
  import opened Base
  import opened JoinTable
  import opened JoinTableLaws
  import opened NodeModel
  import opened RingProtocol
  import opened RingTheorems
  import opened RingRuns
  import opened LateRequest

  // -------------------------------------------------- a table of three entries

  function Tab(a: Option<PendingJoin>, b: Option<PendingJoin>, c: Option<PendingJoin>): JoinState {
    EmptyState().(joins := EmptyState().joins[0 := a][1 := b][2 := c])
  }

  lemma NothingIn()
    ensures Tab(None, None, None) == EmptyState()
  {
    assert Tab(None, None, None).joins == EmptyState().joins;
  }

  predicate Fits(e: Option<PendingJoin>, name: Name) { e.None? || e.value.name == name }

  /** A request goes to the first of the three slots that fits it. */
  lemma AddsTo(a: Option<PendingJoin>, b: Option<PendingJoin>, c: Option<PendingJoin>, r: Request, now: int)
    requires Fits(a, r.name) || Fits(b, r.name) || Fits(c, r.name)
    ensures var e := Some(PendingJoin(r.requestId, r.name, r.port, 0, now));
      Add(Tab(a, b, c), r, 0, now).0 ==
        if Fits(a, r.name) then Tab(e, b, c) else if Fits(b, r.name) then Tab(a, e, c) else Tab(a, b, e)
  {
    var s, e := Tab(a, b, c).joins, Some(PendingJoin(r.requestId, r.name, r.port, 0, now));
    UsedBounds(s);
    assert s[3].None?;
    var k := if Fits(a, r.name) then 0 else if Fits(b, r.name) then 1 else 2;
    assert s[0] == a && s[1] == b && s[2] == c;
    assert FirstFit(s, r.name, 0) == k;
    assert s[0 := e] == Tab(e, b, c).joins && s[1 := e] == Tab(a, e, c).joins && s[2 := e] == Tab(a, b, e).joins;
  }

  function Kept(e: Option<PendingJoin>, now: int): Option<PendingJoin> {
    if Expired(e, now, JOIN_PENDING_TTL_S) then None else e
  }

  lemma PrunesTo(a: Option<PendingJoin>, b: Option<PendingJoin>, c: Option<PendingJoin>, now: int)
    ensures Prune(Tab(a, b, c), now, JOIN_PENDING_TTL_S) == Tab(Kept(a, now), Kept(b, now), Kept(c, now))
  {
    assert Prune(Tab(a, b, c), now, JOIN_PENDING_TTL_S).joins == Tab(Kept(a, now), Kept(b, now), Kept(c, now)).joins;
  }

  function X(x: Name, now: int): Option<PendingJoin> { Some(PendingJoin(1, x, 0, 0, now)) }

  /** The oldest of the three is in the last slot. */
  lemma PopsLast(x: Name, a: int, b: int, c: int)
    requires c < b && c < a
    ensures Used(Tab(X(x, a), X(x, b), X(x, c)).joins) > 0
    ensures Pop(Tab(X(x, a), X(x, b), X(x, c))) == (Tab(X(x, a), X(x, b), None), X(x, c))
  {
    var s := Tab(X(x, a), X(x, b), X(x, c)).joins;
    UsedBounds(s);
    assert s[2].Some?;
    PopAccounting(Tab(X(x, a), X(x, b), X(x, c)));
    assert IsOldest(s, 2);
    OldestIs(s, 2);
    assert s[2 := None] == Tab(X(x, a), X(x, b), None).joins;
  }

  lemma OldestIs(s: Slots, k: nat)
    requires IsOldest(s, k)
    ensures Oldest(s) == Some(k)
  {
    var j := Oldest(s);
    assert IsOldest(s, j.value);
  }

  lemma RemovesFirst(x: Name, a: int, b: int)
    ensures Remove(Tab(X(x, a), X(x, b), None), x) == (Tab(None, X(x, b), None), true)
  {
    var s := Tab(X(x, a), X(x, b), None).joins;
    assert Find(s, x, 0) == 0;
    assert s[0 := None] == Tab(None, X(x, b), None).joins;
  }

  /** What is left is popped next. */
  lemma LeftOver(x: Name, b: int, joins: JoinState)
    requires joins.joins == Tab(None, X(x, b), None).joins
    ensures Used(joins.joins) > 0 && Pop(joins).1 == X(x, b)
  {
    UsedBounds(joins.joins);
    assert joins.joins[1].Some?;
    OldestIs(joins.joins, 1);
  }

  // ------------------------------------------------------------- the requests

  /** c and d are the first ring; x, a and b are outside. */
  datatype Cast = Cast(c: Name, d: Name, x: Name, a: Name, b: Name)

  predicate Different(k: Cast) {
    && k.c != k.d && k.c != k.x && k.c != k.a && k.c != k.b && k.d != k.x
    && k.d != k.a && k.d != k.b && k.x != k.a && k.x != k.b && k.a != k.b
  }

  function ReqOf(n: Name, id: nat): Request { Request(n, id, 0) }

  function Outside(n: Name, id: nat): Node { FirstNode(n, n, n, id, false) }

  function AskingFor(n: Name, id: nat): Node {
    Outside(n, id).(request := NodeModel.RequestTimer.RequestTimer(id, 1, 1))
  }

  /** The token starts at d. */
  function Pair(k: Cast): State {
    State(map[k.d := FirstNode(k.d, k.c, k.c, 0, true), k.c := FirstNode(k.c, k.d, k.d, 0, false),
              k.x := Outside(k.x, 1), k.a := Outside(k.a, 2), k.b := Outside(k.b, 3)],
          map[k.d := 0, k.c := 0, k.x := 0, k.a := 0, k.b := 0], map[k.d := 0, k.c := 0, k.x := 1, k.a := 2, k.b := 3],
          {}, None, [k.d, k.c], [])
  }

  lemma PairIsRing(k: Cast)
    requires Different(k)
    ensures IsRing(Pair(k), [k.d, k.c])
  {
    var g, ring := Pair(k), [k.d, k.c];
    forall i: nat | i < 2
      ensures g.nodes[ring[i]].next == RouteTo(g, NextIn(ring, i))
      ensures g.nodes[ring[i]].prev == RouteTo(g, PrevIn(ring, i))
    {
      assert i == 0 || i == 1;
    }
  }

  lemma PairIsProper(k: Cast)
    requires Different(k)
    ensures Init(Pair(k))
  {
    PairSize(k);
    PairIds(k);
    PairIsRing(k);
    PairNodes(k);
  }

  lemma PairSize(k: Cast)
    requires Different(k)
    ensures var g := Pair(k); g.nodes.Keys == g.ports.Keys == g.ids.Keys && |g.nodes.Keys| == 5
  {
    assert Pair(k).nodes.Keys == {k.c, k.d, k.x, k.a, k.b};
  }

  lemma PairIds(k: Cast)
    requires Different(k)
    ensures DistinctIds(Pair(k).ids)
  {
    assert Pair(k).ids.Keys == {k.c, k.d, k.x, k.a, k.b};
  }

  lemma PairNodes(k: Cast)
    requires Different(k)
    ensures var g := Pair(k); forall n | n in g.nodes :: InitNode(g, n, g.nodes[n])
  {
    forall n | n in Pair(k).nodes ensures InitNode(Pair(k), n, Pair(k).nodes[n]) { PairNode(k, n); }
  }

  lemma PairNode(k: Cast, n: Name)
    requires Different(k) && n in Pair(k).nodes
    ensures InitNode(Pair(k), n, Pair(k).nodes[n])
  {
    assert n == k.c || n == k.d || n == k.x || n == k.a || n == k.b;
  }

  ghost predicate Is(g: State, nd: Node) { nd.current.name in g.nodes && g.nodes[nd.current.name] == nd }

  /** d has sent the token on, and waits for its transport. */
  function Forwarding(k: Cast): Node { FirstNode(k.d, k.c, k.c, 0, true).(sending := true) }

  function TheToken(k: Cast): Packet { Unicast(At(k.c), TokenMsg(Token("", "", "", 0, true))) }

  /** The node c, with the token or without, and the table `t`. */
  function WithTable(k: Cast, token: bool, t: JoinState): Node { FirstNode(k.c, k.d, k.d, 0, token).(joins := t) }

  /** The token is on its way to c. */
  ghost predicate OnTheWay(g: State, k: Cast, t: JoinState) {
    && Reached(g) && g.history == [] && g.transit == Some(TheToken(k))
    && Is(g, Forwarding(k)) && Is(g, WithTable(k, false, t))
  }

  /** No join has completed, everybody outside has asked, and c has the table `t`. */
  ghost predicate Gathered(g: State, k: Cast, t: JoinState) {
    && OnTheWay(g, k, t) && Is(g, AskingFor(k.x, 1)) && Is(g, AskingFor(k.a, 2)) && Is(g, AskingFor(k.b, 3))
    && Broadcast(JoinRequest(ReqOf(k.x, 1))) in g.net && Broadcast(JoinRequest(ReqOf(k.a, 2))) in g.net
    && Broadcast(JoinRequest(ReqOf(k.b, 3))) in g.net
  }

  /** A step of a node that coordinates no join. */
  lemma Quiet(g: State, l: Label) returns (h: State)
    requires Reached(g) && Enabled(g, l) && !l.UseToken? && !l.TokenArrives? && !g.nodes[l.n].inflight.active
    ensures Reached(h) && h == Apply(g, l) && h.transit == g.transit && h.history == g.history
    ensures h.nodes == g.nodes[l.n := LocalStep(g, l).0] && h.net == g.net + Datagrams(LocalStep(g, l).1)
  {
    h := Plain(g, l);
    PlainApply(g, l);
  }

  lemma ForwardsFirst(k: Cast)
    ensures var nd := FirstNode(k.d, k.c, k.c, 0, true);
      HandleToken(nd, 1) == (Forwarding(k), [TheToken(k)]) && !StartsNow(nd)
  {
    EmptyTable();
  }

  predicate StartsNow(nd: Node) { Used(nd.joins.joins) > 0 }

  lemma TokenLeaves(k: Cast) returns (g: State)
    requires Different(k)
    ensures OnTheWay(g, k, Tab(None, None, None))
    ensures Is(g, Outside(k.x, 1)) && Is(g, Outside(k.a, 2)) && Is(g, Outside(k.b, 3))
  {
    var g0, l := Pair(k), UseToken(k.d, 1);
    PairIsProper(k);
    ReachedStart(g0);
    PairNames(k);
    ForwardsFirst(k);
    g := ForwardsOnly(g0, l);
    NothingIn();
    assert WithTable(k, false, EmptyState()) == FirstNode(k.c, k.d, k.d, 0, false);
  }

  lemma PairNames(k: Cast)
    requires Different(k)
    ensures var g := Pair(k);
      && Is(g, FirstNode(k.d, k.c, k.c, 0, true)) && Is(g, FirstNode(k.c, k.d, k.d, 0, false))
      && Is(g, Outside(k.x, 1)) && Is(g, Outside(k.a, 2)) && Is(g, Outside(k.b, 3))
  {
  }

  lemma AsksFor(n: Name, id: nat)
    requires id != 0
    ensures RequestTick(Outside(n, id), 1) == (AskingFor(n, id), [Broadcast(JoinRequest(ReqOf(n, id)))], true)
  {
  }

  lemma SendsFor(g: State, n: Name, id: nat) returns (h: State)
    requires Reached(g) && Is(g, Outside(n, id)) && id != 0
    ensures Reached(h) && h.transit == g.transit && h.history == g.history
    ensures h.nodes == g.nodes[n := AskingFor(n, id)] && h.net == g.net + {Broadcast(JoinRequest(ReqOf(n, id)))}
  {
    AsksFor(n, id);
    h := Quiet(g, Label.RequestTimer(n, 1));
  }

  lemma AllAsk(k: Cast) returns (g: State)
    requires Different(k)
    ensures Gathered(g, k, Tab(None, None, None))
  {
    var g0 := TokenLeaves(k);
    var g1 := SendsFor(g0, k.x, 1);
    var g2 := SendsFor(g1, k.a, 2);
    g := SendsFor(g2, k.b, 3);
  }

  lemma Takes(g: State, k: Cast, t: JoinState, r: Request, now: int) returns (h: State)
    requires Different(k) && Gathered(g, k, t) && t.completed == []
    requires r == ReqOf(k.x, 1) || r == ReqOf(k.a, 2) || r == ReqOf(k.b, 3)
    ensures Gathered(h, k, Add(t, r, 0, now).0)
  {
    h := TakesOne(g, k, t, r, now);
    GatheredStill(g, h, k, t, Add(t, r, 0, now).0);
  }

  lemma IsStill(g: State, h: State, nd: Node, other: Node)
    requires Is(g, other) && other.current.name != nd.current.name && h.nodes == g.nodes[nd.current.name := nd]
    ensures Is(h, other)
  {
  }

  lemma GatheredStill(g: State, h: State, k: Cast, t: JoinState, u: JoinState)
    requires Different(k) && Gathered(g, k, t) && h.nodes == g.nodes[k.c := WithTable(k, false, u)]
    requires Reached(h) && h.history == g.history && h.transit == g.transit && g.net <= h.net
    ensures Gathered(h, k, u)
  {
    var nd := WithTable(k, false, u);
    IsStill(g, h, nd, Forwarding(k));
    IsStill(g, h, nd, AskingFor(k.x, 1));
    IsStill(g, h, nd, AskingFor(k.a, 2));
    IsStill(g, h, nd, AskingFor(k.b, 3));
    assert Is(h, nd);
  }

  lemma TakesOne(g: State, k: Cast, t: JoinState, r: Request, now: int) returns (h: State)
    requires Reached(g) && Is(g, WithTable(k, false, t)) && t.completed == [] && r.name != k.c
    requires Broadcast(JoinRequest(r)) in g.net
    ensures Reached(h) && h.history == g.history && h.transit == g.transit && g.net <= h.net
    ensures h.nodes == g.nodes[k.c := WithTable(k, false, Add(t, r, 0, now).0)]
  {
    TakesInto(k, t, r, now);
    h := Quiet(g, Deliver(k.c, Broadcast(JoinRequest(r)), false, 0, now));
  }

  lemma TakesInto(k: Cast, t: JoinState, r: Request, now: int)
    requires t.completed == [] && r.name != k.c
    ensures HandleRequest(WithTable(k, false, t), r, 0, now) == WithTable(k, false, Add(t, r, 0, now).0)
  {
  }

  lemma Prunes(g: State, k: Cast, t: JoinState, now: int) returns (h: State)
    requires Different(k) && Gathered(g, k, t)
    ensures Gathered(h, k, Prune(t, now, JOIN_PENDING_TTL_S))
  {
    h := Quiet(g, PruneTimer(k.c, now));
  }

  function A(a: Name, now: int): Option<PendingJoin> { Some(PendingJoin(2, a, 0, 0, now)) }

  function B(b: Name, now: int): Option<PendingJoin> { Some(PendingJoin(3, b, 0, 0, now)) }

  /** a and b ask. */
  lemma OthersAsk(k: Cast) returns (g: State)
    requires Different(k)
    ensures Gathered(g, k, Tab(A(k.a, 1), B(k.b, 2), None))
  {
    var g0 := AllAsk(k);
    AddsTo(None, None, None, ReqOf(k.a, 2), 1);
    var g1 := Takes(g0, k, Tab(None, None, None), ReqOf(k.a, 2), 1);
    AddsTo(A(k.a, 1), None, None, ReqOf(k.b, 3), 2);
    g := Takes(g1, k, Tab(A(k.a, 1), None, None), ReqOf(k.b, 3), 2);
  }

  /** a asks again, and x; b does not, and its entry expires first. */
  lemma TwoEntries(k: Cast) returns (g: State)
    requires Different(k)
    ensures Gathered(g, k, Tab(A(k.a, 100), None, X(k.x, 150)))
  {
    var g2 := OthersAsk(k);
    AddsTo(A(k.a, 1), B(k.b, 2), None, ReqOf(k.a, 2), 100);
    var g3 := Takes(g2, k, Tab(A(k.a, 1), B(k.b, 2), None), ReqOf(k.a, 2), 100);
    AddsTo(A(k.a, 100), B(k.b, 2), None, ReqOf(k.x, 1), 150);
    var g4 := Takes(g3, k, Tab(A(k.a, 100), B(k.b, 2), None), ReqOf(k.x, 1), 150);
    PrunesTo(A(k.a, 100), B(k.b, 2), X(k.x, 150), 203);
    g := Prunes(g4, k, Tab(A(k.a, 100), B(k.b, 2), X(k.x, 150)), 203);
  }

  /** x asks into the hole that b left, and then into the one that a left in front of it. */
  lemma ThreeEntries(k: Cast) returns (g: State)
    requires Different(k)
    ensures Gathered(g, k, Tab(X(k.x, 302), X(k.x, 204), X(k.x, 150)))
  {
    var g1 := TwoEntries(k);
    AddsTo(A(k.a, 100), None, X(k.x, 150), ReqOf(k.x, 1), 204);
    var g2 := Takes(g1, k, Tab(A(k.a, 100), None, X(k.x, 150)), ReqOf(k.x, 1), 204);
    PrunesTo(A(k.a, 100), X(k.x, 204), X(k.x, 150), 301);
    var g3 := Prunes(g2, k, Tab(A(k.a, 100), X(k.x, 204), X(k.x, 150)), 301);
    AddsTo(None, X(k.x, 204), X(k.x, 150), ReqOf(k.x, 1), 302);
    g := Takes(g3, k, Tab(None, X(k.x, 204), X(k.x, 150)), ReqOf(k.x, 1), 302);
  }

  // ------------------------------------------------------------------ the join

  function Offer(k: Cast): Msg { JoinAccept(1, At(k.x), At(k.c), At(k.d)) }

  /** c joins x in front of itself, behind d. */
  function Coordinates(k: Cast, gotJoiner: bool): Node {
    WithTable(k, true, Tab(X(k.x, 302), X(k.x, 204), None)).(
      inflight := Inflight(true, 1, X(k.x, 150).value, k.d, false, gotJoiner, 303, 1))
  }

  lemma TakesToken(k: Cast, t: JoinState)
    ensures ReceiveToken(WithTable(k, false, t), TheToken(k).msg.token) == WithTable(k, true, t)
  {
  }

  lemma StartsWithX(k: Cast)
    requires Different(k)
    ensures HandleToken(WithTable(k, true, Tab(X(k.x, 302), X(k.x, 204), X(k.x, 150))), 303)
         == (Coordinates(k, false), [Unicast(At(k.x), Offer(k)), Unicast(At(k.d), Offer(k))])
  {
    PopsLast(k.x, 302, 204, 150);
    var was, t := WithTable(k, true, Tab(X(k.x, 302), X(k.x, 204), X(k.x, 150))), Tab(X(k.x, 302), X(k.x, 204), None);
    assert was.(joins := t) == WithTable(k, true, t);
    var nd := StartInflight(WithTable(k, true, t), X(k.x, 150).value);
    assert InflightTick(nd, 303).0 == Coordinates(k, false);
    var toX, toD := Unicast(At(k.x), Offer(k)), Unicast(At(k.d), Offer(k));
    assert AcceptMsg(nd) == Offer(k) && JoinerRoute(nd.inflight.joiner) == At(k.x) && nd.prev == At(k.d);
    assert [toX] + [toD] == [toX, toD];
    assert InflightTick(nd, 303).1 == [toX, toD];
  }

  lemma XApplies(k: Cast)
    ensures var (nd, out) := HandleAccept(AskingFor(k.x, 1), Offer(k), false, 304);
      nd.joined && nd.current == At(k.x) && out == [Unicast(At(k.c), JoinAck(1, k.x))]
  {
  }

  /** d after its send has returned. */
  function Back(k: Cast): Node { EndForward(Forwarding(k)) }

  lemma DApplies(k: Cast)
    requires Different(k)
    ensures var (nd, out) := HandleAccept(Back(k), Offer(k), false, 304);
      nd.current == At(k.d) && out == [Unicast(At(k.c), JoinAck(1, k.d))]
  {
  }

  lemma HearsX(k: Cast)
    requires Different(k)
    ensures HandleAck(Coordinates(k, false), JoinAck(1, k.x)).0 == Coordinates(k, true)
  {
  }

  /** The node c once the join is complete: the third entry of x is still there. */
  lemma CompletesWithEntry(k: Cast)
    requires Different(k)
    ensures var nd := HandleAck(Coordinates(k, true), JoinAck(1, k.d)).0;
      TokenReady(nd) && !nd.sending && nd.current == At(k.c) && nd.joins.joins == Tab(None, X(k.x, 204), None).joins
  {
    RemovesFirst(k.x, 302, 204);
    var nd := Confirm(Coordinates(k, true), k.d);
    assert nd.inflight.gotPrev && nd.inflight.gotJoiner;
  }

  function OfferToX(k: Cast): Label { Deliver(k.x, Unicast(At(k.x), Offer(k)), false, 0, 304) }

  function OfferToD(k: Cast): Label { Deliver(k.d, Unicast(At(k.d), Offer(k)), false, 0, 304) }

  function AckOfX(k: Cast): Label { Deliver(k.c, Unicast(At(k.c), JoinAck(1, k.x)), false, 0, 305) }

  function AckOfD(k: Cast): Label { Deliver(k.c, Unicast(At(k.c), JoinAck(1, k.d)), false, 0, 305) }

  function BothAcks(k: Cast): seq<Label> { [AckOfX(k), AckOfD(k)] }

  /** Both neighbours do their part, and c hears of it. */
  function BothParts(k: Cast): seq<Label> { [OfferToX(k), OfferToD(k)] + BothAcks(k) }

  /** The token arrives, and c joins x. No request is among these steps. */
  function TheJoin(k: Cast): seq<Label> { [TokenArrives(k.c), SendReturns(k.d), UseToken(k.c, 303)] + BothParts(k) }

  /** The steps `ls` lead from `g` to `h`, starting no join for a member. */
  ghost predicate Follow(g: State, ls: seq<Label>, h: State)
    decreases |ls|
  {
    if ls == [] then h == g else Enabled(g, ls[0]) && StartsFresh(g, ls[0]) && Follow(Apply(g, ls[0]), ls[1..], h)
  }

  lemma Arrives(g: State, k: Cast, t: JoinState) returns (h: State)
    requires Different(k) && Gathered(g, k, t)
    ensures Enabled(g, TokenArrives(k.c)) && h == Apply(g, TokenArrives(k.c)) && Reached(h)
    ensures Is(h, Forwarding(k)) && Is(h, WithTable(k, true, t)) && Is(h, AskingFor(k.x, 1))
  {
    TakesToken(k, t);
    h := ArrivesOnly(g, TokenArrives(k.c));
  }

  lemma Returns(g: State, k: Cast, t: JoinState) returns (h: State)
    requires Different(k) && Reached(g)
    requires Is(g, Forwarding(k)) && Is(g, WithTable(k, true, t)) && Is(g, AskingFor(k.x, 1))
    ensures Enabled(g, SendReturns(k.d)) && h == Apply(g, SendReturns(k.d)) && Reached(h)
    ensures Is(h, Back(k)) && Is(h, WithTable(k, true, t)) && Is(h, AskingFor(k.x, 1))
  {
    h := Plain(g, SendReturns(k.d));
  }

  lemma StartIsFresh(g: State, k: Cast)
    requires Different(k) && Is(g, AskingFor(k.x, 1))
    requires Is(g, WithTable(k, true, Tab(X(k.x, 302), X(k.x, 204), X(k.x, 150))))
    ensures StartsFresh(g, UseToken(k.c, 303))
  {
    PopsLast(k.x, 302, 204, 150);
  }

  lemma Starts(g: State, k: Cast) returns (h: State)
    requires Different(k) && Reached(g) && Is(g, AskingFor(k.x, 1)) && Is(g, Back(k))
    requires Is(g, WithTable(k, true, Tab(X(k.x, 302), X(k.x, 204), X(k.x, 150))))
    ensures Enabled(g, UseToken(k.c, 303)) && StartsFresh(g, UseToken(k.c, 303)) && h == Apply(g, UseToken(k.c, 303))
    ensures Reached(h) && Unicast(At(k.x), Offer(k)) in h.net && Unicast(At(k.d), Offer(k)) in h.net
    ensures Is(h, Coordinates(k, false)) && Is(h, Back(k)) && Is(h, AskingFor(k.x, 1))
  {
    StartIsFresh(g, k);
    StartsWithX(k);
    var out := [Unicast(At(k.x), Offer(k)), Unicast(At(k.d), Offer(k))];
    assert out[0] in out && out[1] in out;
    h := StartsOnly(g, UseToken(k.c, 303));
    IsStill(g, h, Coordinates(k, false), Back(k));
    IsStill(g, h, Coordinates(k, false), AskingFor(k.x, 1));
  }

  lemma XComesIn(g: State, k: Cast) returns (h: State)
    requires Different(k) && Reached(g) && Unicast(At(k.x), Offer(k)) in g.net && Unicast(At(k.d), Offer(k)) in g.net
    requires Is(g, Coordinates(k, false)) && Is(g, Back(k)) && Is(g, AskingFor(k.x, 1))
    ensures Enabled(g, OfferToX(k)) && h == Apply(g, OfferToX(k)) && Reached(h)
    ensures Unicast(At(k.d), Offer(k)) in h.net && Unicast(At(k.c), JoinAck(1, k.x)) in h.net
    ensures Is(h, Coordinates(k, false)) && Is(h, Back(k)) && k.x in h.nodes && h.nodes[k.x].joined
  {
    XApplies(k);
    var p := Unicast(At(k.c), JoinAck(1, k.x));
    assert p in [p];
    h := Plain(g, OfferToX(k));
  }

  lemma DComesOn(g: State, k: Cast) returns (h: State)
    requires Different(k) && Reached(g) && Unicast(At(k.d), Offer(k)) in g.net
    requires Unicast(At(k.c), JoinAck(1, k.x)) in g.net
    requires Is(g, Coordinates(k, false)) && Is(g, Back(k)) && k.x in g.nodes && g.nodes[k.x].joined
    ensures Enabled(g, OfferToD(k)) && h == Apply(g, OfferToD(k)) && Reached(h)
    ensures Unicast(At(k.c), JoinAck(1, k.x)) in h.net && Unicast(At(k.c), JoinAck(1, k.d)) in h.net
    ensures Is(h, Coordinates(k, false)) && k.x in h.nodes && h.nodes[k.x].joined
  {
    DApplies(k);
    var p := Unicast(At(k.c), JoinAck(1, k.d));
    assert p in [p];
    h := Plain(g, OfferToD(k));
  }

  lemma XHeard(g: State, k: Cast) returns (h: State)
    requires Different(k) && Reached(g) && Is(g, Coordinates(k, false)) && k.x in g.nodes && g.nodes[k.x].joined
    requires Unicast(At(k.c), JoinAck(1, k.x)) in g.net && Unicast(At(k.c), JoinAck(1, k.d)) in g.net
    ensures Enabled(g, AckOfX(k)) && h == Apply(g, AckOfX(k)) && Reached(h)
    ensures Is(h, Coordinates(k, true)) && k.x in h.nodes && h.nodes[k.x].joined
    ensures Unicast(At(k.c), JoinAck(1, k.d)) in h.net
  {
    HearsX(k);
    h := Plain(g, AckOfX(k));
  }

  lemma DHeard(g: State, k: Cast) returns (h: State)
    requires Different(k) && Reached(g) && Is(g, Coordinates(k, true)) && k.x in g.nodes && g.nodes[k.x].joined
    requires Unicast(At(k.c), JoinAck(1, k.d)) in g.net
    ensures Enabled(g, AckOfD(k)) && h == Apply(g, AckOfD(k)) && JoinsAgain(h, k)
  {
    h := Plain(g, AckOfD(k));
    StartsAgain(h, k);
  }

  /** The next use of the token at c starts a join for a member. */
  ghost predicate JoinsAgain(h: State, k: Cast) {
    Enabled(h, UseToken(k.c, 306)) && StartsJoin(h, UseToken(k.c, 306)) && !StartsFresh(h, UseToken(k.c, 306))
  }

  lemma StartsAgain(h: State, k: Cast)
    requires Different(k) && k.x in h.nodes && h.nodes[k.x].joined
    requires k.c in h.nodes && h.nodes[k.c] == HandleAck(Coordinates(k, true), JoinAck(1, k.d)).0
    ensures JoinsAgain(h, k)
  {
    CompletesWithEntry(k);
    LeftOver(k.x, 204, h.nodes[k.c].joins);
  }

  lemma FollowNext(g: State, l: Label, ls: seq<Label>, h: State)
    requires Enabled(g, l) && StartsFresh(g, l) && Follow(Apply(g, l), ls, h)
    ensures Follow(g, [l] + ls, h)
  {
    assert ([l] + ls)[1..] == ls;
  }

  lemma BothFollow(g: State, k: Cast) returns (h: State)
    requires Different(k) && Reached(g) && Unicast(At(k.x), Offer(k)) in g.net && Unicast(At(k.d), Offer(k)) in g.net
    requires Is(g, Coordinates(k, false)) && Is(g, Back(k)) && Is(g, AskingFor(k.x, 1))
    ensures Follow(g, BothParts(k), h) && JoinsAgain(h, k)
  {
    var g1 := XComesIn(g, k);
    h := DFollows(g1, k);
    FollowNext(g, OfferToX(k), [OfferToD(k)] + BothAcks(k), h);
    PartsInOrder(k);
  }

  lemma PartsInOrder(k: Cast)
    ensures [OfferToX(k)] + ([OfferToD(k)] + BothAcks(k)) == BothParts(k)
  {
  }

  lemma DFollows(g: State, k: Cast) returns (h: State)
    requires Different(k) && Reached(g) && Unicast(At(k.d), Offer(k)) in g.net
    requires Unicast(At(k.c), JoinAck(1, k.x)) in g.net
    requires Is(g, Coordinates(k, false)) && Is(g, Back(k)) && k.x in g.nodes && g.nodes[k.x].joined
    ensures Follow(g, [OfferToD(k)] + BothAcks(k), h) && JoinsAgain(h, k)
  {
    var g1 := DComesOn(g, k);
    h := HearsFollow(g1, k);
    FollowNext(g, OfferToD(k), BothAcks(k), h);
  }

  lemma HearsFollow(g: State, k: Cast) returns (h: State)
    requires Different(k) && Reached(g) && Is(g, Coordinates(k, false)) && k.x in g.nodes && g.nodes[k.x].joined
    requires Unicast(At(k.c), JoinAck(1, k.x)) in g.net && Unicast(At(k.c), JoinAck(1, k.d)) in g.net
    ensures Follow(g, BothAcks(k), h) && JoinsAgain(h, k)
  {
    var g1 := XHeard(g, k);
    h := DHeard(g1, k);
    FollowNext(g1, AckOfD(k), [], h);
    FollowNext(g, AckOfX(k), [AckOfD(k)] + [], h);
    assert [AckOfX(k)] + ([AckOfD(k)] + []) == BothAcks(k);
  }

  lemma FromThere(g: State, k: Cast) returns (h: State)
    requires Different(k) && Gathered(g, k, Tab(X(k.x, 302), X(k.x, 204), X(k.x, 150)))
    ensures Follow(g, TheJoin(k), h) && JoinsAgain(h, k)
  {
    var g1 := Arrives(g, k, Tab(X(k.x, 302), X(k.x, 204), X(k.x, 150)));
    var g2 := Returns(g1, k, Tab(X(k.x, 302), X(k.x, 204), X(k.x, 150)));
    var g3 := Starts(g2, k);
    h := BothFollow(g3, k);
    ThreeMore(g, g1, g2, k, h);
  }

  lemma ThreeMore(g: State, g1: State, g2: State, k: Cast, h: State)
    requires Enabled(g, TokenArrives(k.c)) && g1 == Apply(g, TokenArrives(k.c))
    requires Enabled(g1, SendReturns(k.d)) && g2 == Apply(g1, SendReturns(k.d))
    requires Enabled(g2, UseToken(k.c, 303)) && StartsFresh(g2, UseToken(k.c, 303))
    requires Follow(Apply(g2, UseToken(k.c, 303)), BothParts(k), h)
    ensures Follow(g, TheJoin(k), h)
  {
    var l0, l1, l2, ls := TokenArrives(k.c), SendReturns(k.d), UseToken(k.c, 303), BothParts(k);
    FollowNext(g2, l2, ls, h);
    FollowNext(g1, l1, [l2] + ls, h);
    FollowNext(g, l0, [l1] + ([l2] + ls), h);
    assert [l0] + ([l1] + ([l2] + ls)) == TheJoin(k);
  }

  lemma ThreeOf(x: Name, a: int, b: int, c: int)
    ensures Thrice(Tab(X(x, a), X(x, b), X(x, c)).joins, x)
  {
    var s := Tab(X(x, a), X(x, b), X(x, c)).joins;
    assert JoinTable.Holds(s, 0, x) && JoinTable.Holds(s, 1, x) && JoinTable.Holds(s, 2, x);
  }

  /** From the start: no request is late, for no join has completed when the last is taken, and the token is not
      at c. Yet with three entries of x in its table c, once it has the token, joins x and then starts a
      join for the member x. */
  lemma ThirdCopyStartsMember(k: Cast)
    requires Different(k)
    ensures exists g, h ::
      (&& Reached(g) && g.history == [] && g.transit == Some(TheToken(k))
       && k.c in g.nodes && !g.nodes[k.c].haveToken && Thrice(g.nodes[k.c].joins.joins, k.x)
       && Follow(g, TheJoin(k), h) && JoinsAgain(h, k))
  {
    var g := ThreeEntries(k);
    ThreeOf(k.x, 302, 204, 150);
    var h := FromThere(g, k);
  }
}
