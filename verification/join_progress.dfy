/** When a join in flight can be brought to its end: every neighbour of the coordinator that has done its part
    must still be able to say so. */
module JoinProgress {
  import opened Base
  import opened JoinTable
  import opened NodeModel
  import opened NodeLaws
  import opened RingProtocol
  import opened RingInvariant
  import opened RingRun
  import opened RingHandlers
  import opened RingTheorems
  import opened RingRuns
  import opened LossyRuns
  import opened Replay
  import opened JoinWait

  // ------------------------------------------------- acknowledgements of the join under way

  function RequestOf(g: State): nat
    requires Joining(g)
  {
    g.nodes[g.ring[0]].inflight.requestId
  }

  function AckOf(g: State, n: Name): Packet
    requires Joining(g)
  {
    Unicast(RouteTo(g, g.ring[0]), JoinAck(RequestOf(g), n))
  }

  /** They go to the coordinator. */
  ghost predicate AcksHome(g: State) {
    Joining(g) ==>
      && (forall p | p in g.net && p.msg.JoinAck? && p.msg.requestId == RequestOf(g) :: p == AckOf(g, p.msg.from))
      && (forall n | n in g.nodes && Sending(g.nodes[n]) && g.nodes[n].ackSender.requestId == RequestOf(g) ::
            g.nodes[n].ackSender.coord == RouteTo(g, g.ring[0]))
  }

  /** The joiner has done its part of the join. */
  ghost predicate JoinerDone(g: State) {
    Joining(g) && Joiner(g) in g.nodes && g.nodes[Joiner(g)].joined
  }

  /** The predecessor has done its part, and is not the coordinator itself. */
  ghost predicate PrevDone(g: State) {
    && Joining(g) && Last(g.ring) != g.ring[0] && Last(g.ring) in g.nodes
    && g.nodes[Last(g.ring)].next.name == Joiner(g)
  }

  /** A neighbour has done its part. */
  ghost predicate Done(g: State, part: Part) { if part.TheJoiner? then JoinerDone(g) else PrevDone(g) }

  function Neighbour(g: State, part: Part): Name
    requires Joining(g)
  {
    if part.TheJoiner? then Joiner(g) else Last(g.ring)
  }

  /** The coordinator knows. */
  predicate Confirmed(g: State, part: Part)
    requires Joining(g)
  {
    if part.TheJoiner? then g.nodes[g.ring[0]].inflight.gotJoiner else g.nodes[g.ring[0]].inflight.gotPrev
  }

  /** The acknowledgement is on its way, or will be sent again. */
  predicate CanAnswer(g: State, part: Part)
    requires Joining(g)
  {
    var m := Neighbour(g, part);
    || AckOf(g, m) in g.net
    || (m in g.nodes && Sending(g.nodes[m]) && g.nodes[m].ackSender.requestId == RequestOf(g))
  }

  ghost predicate EveryoneCanAnswer(g: State)
    requires Joining(g)
  {
    forall part: Part | Done(g, part) && !Confirmed(g, part) :: CanAnswer(g, part)
  }

  /** A node joins only by applying an accept. */
  lemma JoinsByAccept(nd: Node, e: Event)
    requires !nd.joined && React(nd, e).joined && (e.OnSendReturns? <==> nd.sending) && LocalInv(nd)
    ensures e.OnMessage? && e.m.JoinAccept? && ApplyAccept(nd, e.m).1
  {
    if e.OnMessage? { MessageJoins(nd, e.m, e.sent, e.ip, e.now); }
  }

  lemma MessageJoins(nd: Node, m: Msg, sent: bool, ip: nat, now: int)
    requires !nd.joined && LocalInv(nd)
    ensures ReactToMessage(nd, m, sent, ip, now).joined ==> m.JoinAccept? && ApplyAccept(nd, m).1
  {
    match m
    case JoinAccept(_, _, _, _) => AcceptShape(nd, m, sent, now);
    case _ =>
  }

  /** Applying the accept of the join under way sends its acknowledgement. */
  lemma AppliedAnswers(g: State, l: Label)
    requires Inv(g) && Enabled(g, l) && l.Deliver? && l.p.msg.JoinAccept? && ApplyAccept(g.nodes[l.n], l.p.msg).1
    ensures Joining(g) && AckOf(g, l.n) in Apply(g, l).net
  {
    var m, nd := l.p.msg, g.nodes[l.n];
    CurrentIs(g, l.n);
    AcceptIsCurrent(g, l.n, m);
    AcceptShape(nd, m, l.sent, l.now);
    PlainApply(g, l);
    assert m.requestId == g.ids[Joiner(g)] == g.nodes[g.ring[0]].inflight.requestId;
    assert HandleAccept(nd, m, l.sent, l.now).1 == [AckOf(g, l.n)];
    assert AckOf(g, l.n) in HandleAccept(nd, m, l.sent, l.now).1;
  }

  lemma ApplyIsDelivery(g: State, l: Label, nd: Node)
    requires Enabled(g, l) && Inv(g) && nd == g.nodes[l.n]
    requires EventOf(g, l).OnMessage? && EventOf(g, l).m.JoinAccept?
    ensures l.Deliver? && l.p.msg == EventOf(g, l).m
  {
    if l.TokenArrives? { ArrivesAtHead(g, l.n); }
  }

  lemma NetGrowsOn(g: State, l: Label)
    requires l.n in g.nodes
    ensures g.net <= Apply(g, l).net
  {
  }

  ghost predicate GoesOn(g: State, h: State) {
    Joining(g) && Joining(h) && h.ring == g.ring && Joiner(h) == Joiner(g)
  }

  lemma SameRequest(g: State, l: Label)
    requires AllLocal(g) && Enabled(g, l) && Joining(g)
    requires Joining(Apply(g, l)) && Apply(g, l).ring == g.ring
    ensures Apply(g, l).nodes[g.ring[0]].inflight.requestId == g.nodes[g.ring[0]].inflight.requestId
    ensures Apply(g, l).ports == g.ports
  {
    ApplyNodes(g, l);
    StepLocal(g, l);
  }

  lemma PrevMoves(g: State, l: Label)
    requires Inv(g) && AllLocal(g) && Enabled(g, l) && Joining(g) && Last(g.ring) != g.ring[0]
    requires l.n == Last(g.ring) && LocalStep(g, l).0.next != g.nodes[l.n].next
    ensures EventOf(g, l).OnMessage? && EventOf(g, l).m.JoinAccept? && ApplyAccept(g.nodes[l.n], EventOf(g, l).m).1
  {
    LocalReacts(g, l);
    if g.nodes[l.n].inflight.active { HeadIs(g, l.n); }
    if !MayReroute(g.nodes[l.n], EventOf(g, l)) { RoutesStay(g.nodes[l.n], EventOf(g, l)); }
  }

  /** `h` is `g` with a join of `e` started at the head. */
  ghost predicate StartedOf(g: State, h: State, e: PendingJoin) {
    && g.ring != [] && h.ring == g.ring && g.ring[0] in h.nodes && g.ring[0] in g.nodes
    && h.nodes == g.nodes[g.ring[0] := h.nodes[g.ring[0]]]
    && h.nodes[g.ring[0]].inflight.joiner == e
  }

  lemma StartShape(g: State, l: Label)
    requires RingOk(g) && Enabled(g, l) && l.UseToken?
    requires TokenReady(g.nodes[l.n]) && !g.nodes[l.n].sending && Used(g.nodes[l.n].joins.joins) > 0
    requires Pop(g.nodes[l.n].joins).1.Some?
    ensures StartedOf(g, Apply(g, l), Pop(g.nodes[l.n].joins).1.value)
  {
    HolderIs(g, l.n);
    StartApply(g, l);
    StartRecords(g.nodes[l.n], l.now);
  }

  lemma StartRecords(nd: Node, now: int)
    requires TokenReady(nd) && Used(nd.joins.joins) > 0 && Pop(nd.joins).1.Some?
    ensures HandleToken(nd, now).0.inflight.active && HandleToken(nd, now).0.inflight.joiner == Pop(nd.joins).1.value
  {
    TickKeepsJoin(StartInflight(nd.(joins := Pop(nd.joins).0), Pop(nd.joins).1.value), now);
  }

  lemma StartedIsUndone(g: State, h: State, e: PendingJoin)
    requires RingOk(g) && !Joining(g) && StartedOf(g, h, e)
    requires e.name !in g.ring && e.name in g.nodes && !g.nodes[e.name].joined
    ensures !JoinerDone(h) && !PrevDone(h)
  {
    assert g.nodes[g.ring[|g.ring| - 1]].next == RouteTo(g, NextIn(g.ring, |g.ring| - 1));
  }

  /** A join that starts has nobody who has done its part. */
  lemma StartUnanswered(g: State, l: Label)
    requires Inv(g) && AllLocal(g) && Enabled(g, l) && StartsFresh(g, l) && !Joining(g) && Joining(Apply(g, l))
    ensures !JoinerDone(Apply(g, l)) && !PrevDone(Apply(g, l))
  {
    NewStarter(g, l);
    HolderIs(g, l.n);
    StartShape(g, l);
    PoppedIsNew(g, l);
    StartedIsUndone(g, Apply(g, l), Pop(g.nodes[l.n].joins).1.value);
  }

  /** Only the use of the token starts a join. */
  lemma NewStarter(g: State, l: Label)
    requires Inv(g) && AllLocal(g) && Enabled(g, l) && !Joining(g) && Joining(Apply(g, l))
    ensures l.UseToken? && TokenReady(g.nodes[l.n]) && !g.nodes[l.n].sending
    ensures Used(g.nodes[l.n].joins.joins) > 0 && Pop(g.nodes[l.n].joins).1.Some?
  {
    var c := Apply(g, l).ring[0];
    ApplyNodes(g, l);
    NoneActive(g);
    LocalReacts(g, l);
    OnlyUseTokenStarts(g.nodes[l.n], EventOf(g, l));
  }

  lemma NoneActive(g: State)
    requires RingOk(g) && !Joining(g)
    ensures forall n | n in g.nodes :: !g.nodes[n].inflight.active
  {
    forall n | n in g.nodes ensures !g.nodes[n].inflight.active { assert TokenOk(g, n, g.nodes[n]); }
  }

  lemma TickKeepsJoin(nd: Node, now: int)
    requires nd.inflight.active && !(nd.inflight.gotPrev && nd.inflight.gotJoiner)
    ensures var nd' := InflightTick(nd, now).0;
      nd' == nd.(inflight := nd'.inflight) && nd'.inflight ==
        nd.inflight.(lastSent := nd'.inflight.lastSent, retries := nd'.inflight.retries)
  {
  }

  /** A step that completes the join leaves none under way. */
  lemma CompletedIsQuiet(g: State, l: Label)
    requires Inv(g) && AllLocal(g) && Enabled(g, l) && Joining(g) && !GoesOn(g, Apply(g, l))
    ensures !Joining(Apply(g, l))
  {
    ApplyNodes(g, l);
    StepLocal(g, l);
    NoForward(g, l);
    if l.n != g.ring[0] && g.nodes[l.n].inflight.active { HeadIs(g, l.n); }
  }

  /** An accept that applies is answered to the coordinator. */
  lemma AppliedGoesHome(g: State, l: Label, to: Route, id: nat)
    requires Inv(g) && Enabled(g, l) && JoinWait.Answers(g.nodes[l.n], l, to, id)
    ensures Joining(g) && to == RouteTo(g, g.ring[0])
  {
    CurrentIs(g, l.n);
    AcceptIsCurrent(g, l.n, l.p.msg);
  }

  /** What a step sends, and what it leaves to be sent again, goes there too. */
  lemma SentGoesHome(g: State, l: Label)
    requires Inv(g) && AcksHome(g) && Enabled(g, l) && Joining(g)
    ensures var (nd, out) := LocalStep(g, l);
      && (forall p | p in out && p.msg.JoinAck? && p.msg.requestId == RequestOf(g) :: p == AckOf(g, p.msg.from))
      && (Sending(nd) && nd.ackSender.requestId == RequestOf(g) ==> nd.ackSender.coord == RouteTo(g, g.ring[0]))
  {
    var was := g.nodes[l.n];
    var (nd, out) := LocalStep(g, l);
    StepAcks(g, l);
    forall p | p in out && p.msg.JoinAck? && p.msg.requestId == RequestOf(g) ensures p == AckOf(g, p.msg.from) {
      assert IsOwnAck(was, l, p);
      if !Resends(was, p.dst, p.msg.requestId) { AppliedGoesHome(g, l, p.dst, p.msg.requestId); }
    }
    if Sending(nd) && !Resends(was, nd.ackSender.coord, nd.ackSender.requestId) {
      AppliedGoesHome(g, l, nd.ackSender.coord, nd.ackSender.requestId);
    }
  }

  lemma StepStaysHome(g: State, l: Label)
    requires Inv(g) && AllLocal(g) && AcksHome(g) && Enabled(g, l) && GoesOn(g, Apply(g, l))
    ensures AcksHome(Apply(g, l))
  {
    SameRequest(g, l);
    SentGoesHome(g, l);
    ApplyNodes(g, l);
    HomeAgain(g, Apply(g, l), l.n, LocalStep(g, l).0, LocalStep(g, l).1);
  }

  lemma HomeAgain(g: State, h: State, n: Name, nd: Node, out: seq<Packet>)
    requires AcksHome(g) && GoesOn(g, h) && n in g.nodes && RequestOf(h) == RequestOf(g) && h.ports == g.ports
    requires h.nodes == g.nodes[n := nd] && h.net == g.net + Datagrams(out)
    requires forall p | p in out && p.msg.JoinAck? && p.msg.requestId == RequestOf(g) :: p == AckOf(g, p.msg.from)
    requires Sending(nd) && nd.ackSender.requestId == RequestOf(g) ==> nd.ackSender.coord == RouteTo(g, g.ring[0])
    ensures AcksHome(h)
  {
  }

  /** Nobody has acknowledged the request of a node that is neither a member nor joining. */
  lemma NewIdUnheard(g: State, e: Name)
    requires Inv(g) && !Joining(g) && e in g.ids && e !in g.ring && g.ids[e] != 0
    ensures forall p | p in g.net && p.msg.JoinAck? :: p.msg.requestId != g.ids[e]
    ensures forall n | n in g.nodes && g.nodes[n].ackSender.active :: g.nodes[n].ackSender.requestId != g.ids[e]
  {
    forall p | p in g.net && p.msg.JoinAck? ensures p.msg.requestId != g.ids[e] {
      assert MsgOk(ViewOf(g), p.msg);
    }
  }

  lemma StartIsHome(g: State, l: Label)
    requires Inv(g) && AllLocal(g) && Enabled(g, l) && StartsFresh(g, l) && !Joining(g) && Joining(Apply(g, l))
    ensures AcksHome(Apply(g, l))
  {
    NewStarter(g, l);
    HolderIs(g, l.n);
    StartShape(g, l);
    PoppedIsNew(g, l);
    var e := Pop(g.nodes[l.n].joins).1.value;
    StartSends(g, l);
    NewIdUnheard(g, e.name);
  }

  /** The start of a join sends no acknowledgement, and is for the id of the popped entry. */
  lemma StartSends(g: State, l: Label)
    requires Inv(g) && Enabled(g, l) && l.UseToken? && TokenReady(g.nodes[l.n]) && l.n == g.ring[0]
    requires Used(g.nodes[l.n].joins.joins) > 0 && Pop(g.nodes[l.n].joins).1.Some?
    requires Joining(Apply(g, l)) && Apply(g, l).ring == g.ring
    ensures var h, e := Apply(g, l), Pop(g.nodes[l.n].joins).1.value;
      && e.name in g.ids && g.ids[e.name] != 0 && RequestOf(h) == g.ids[e.name]
      && (forall p | p in h.net && p.msg.JoinAck? :: p in g.net)
      && (forall n | n in h.nodes && Sending(h.nodes[n]) ::
          n in g.nodes && h.nodes[n].ackSender == g.nodes[n].ackSender)
  {
    PoppedIsOk(g, l.n);
    StartApply(g, l);
    StartQuiet(g.nodes[l.n], l.now);
    PutSends(g, l.n, HandleToken(g.nodes[l.n], l.now).0, HandleToken(g.nodes[l.n], l.now).1);
  }

  lemma PoppedIsOk(g: State, n: Name)
    requires TablesOk(g) && n in g.nodes && Pop(g.nodes[n].joins).1.Some?
    ensures PendingOk(g.ids, g.ports, n, Pop(g.nodes[n].joins).1.value)
  {
  }

  lemma PutSends(g: State, n: Name, nd: Node, out: seq<Packet>)
    requires n in g.nodes && nd.ackSender == g.nodes[n].ackSender && forall p | p in out :: !p.msg.JoinAck?
    ensures var h := Put(g, n, nd, out);
      && (forall p | p in h.net && p.msg.JoinAck? :: p in g.net)
      && (forall m | m in h.nodes :: m in g.nodes && h.nodes[m].ackSender == g.nodes[m].ackSender)
  {
  }

  lemma StartQuiet(nd: Node, now: int)
    requires TokenReady(nd) && Used(nd.joins.joins) > 0 && Pop(nd.joins).1.Some?
    ensures var (nd', out) := HandleToken(nd, now);
      && nd'.ackSender == nd.ackSender && nd'.inflight.requestId == Pop(nd.joins).1.value.requestId
      && forall p | p in out :: p.msg.JoinAccept?
  {
    var nd1 := StartInflight(nd.(joins := Pop(nd.joins).0), Pop(nd.joins).1.value);
    InflightTimerShape(nd1, now);
  }

  // ------------------------------------------------------------------ every state of a run

  /** What holds in every run, whatever is lost. */
  ghost predicate Sane(g: State) { Inv(g) && AllLocal(g) && AcksHome(g) }

  lemma StepSane(g: State, l: Label)
    requires Sane(g) && Enabled(g, l) && StartsFresh(g, l)
    ensures Sane(Apply(g, l))
  {
    StepKeepsInv(g, l);
    StepLocal(g, l);
    StepHome(g, l);
  }

  lemma StepHome(g: State, l: Label)
    requires Sane(g) && Enabled(g, l) && StartsFresh(g, l)
    ensures AcksHome(Apply(g, l))
  {
    var h := Apply(g, l);
    if Joining(h) {
      if !Joining(g) {
        StartIsHome(g, l);
      } else {
        JoiningGoesOn(g, l);
        if !GoesOn(g, h) { CompletedIsQuiet(g, l); }
        StepStaysHome(g, l);
      }
    }
  }

  lemma LossSane(g: State, lost: set<Packet>)
    requires Sane(g)
    ensures Sane(g.(net := g.net - lost))
  {
    LossKeepsInv(g, lost);
  }

  lemma {:induction false} GoesSane(g: State, ms: seq<Move>, h: State)
    requires Sane(g) && Goes(g, ms, h) && AllFresh(g, ms)
    ensures Sane(h)
    decreases |ms|
  {
    if ms != [] {
      match ms[0] {
        case Step(l) => StepSane(g, l);
        case Loss(lost) => LossSane(g, lost);
      }
      GoesSane(Next(g, ms[0]), ms[1..], h);
    }
  }

  lemma ReachedSane(g: State)
    requires LossyReached(g)
    ensures Sane(g)
  {
    var g0 :| Init(g0) && CanGo(g0, g);
    InitSane(g0);
    var ms :| Goes(g0, ms, g) && AllFresh(g0, ms);
    GoesSane(g0, ms, g);
  }

  lemma InitSane(g: State)
    requires Init(g)
    ensures Sane(g)
  {
    InitInv(g);
    forall n | n in g.nodes ensures LocalInv(g.nodes[n]) && !g.nodes[n].inflight.active {
      assert InitNode(g, n, g.nodes[n]);
    }
  }

  // ------------------------------------------------------------- going on from here

  /** The coordinator knows that this neighbour has done its part, or can hear it. */
  ghost predicate Ready(g: State, part: Part) {
    Joining(g) && (Confirmed(g, part) || (Done(g, part) && AckOf(g, Neighbour(g, part)) in g.net))
  }

  /** One step of a node that does not use the token or receive it. */
  lemma Go(g: State, l: Label) returns (h: State)
    requires Sane(g) && Enabled(g, l) && !l.UseToken? && !l.TokenArrives?
    ensures h == Apply(g, l) == Put(g, l.n, LocalStep(g, l).0, LocalStep(g, l).1)
    ensures Leads(g, h) && Sane(h)
  {
    h := Apply(g, l);
    StepSane(g, l);
    LeadsSelf(g);
    LeadsNext(g, g, l);
    PlainApply(g, l);
  }

  /** The join goes on, and the coordinator has heard nothing new of it. */
  ghost predicate SameSoFar(g: State, h: State) {
    && h.ports == g.ports && h.history == g.history && GoesOn(g, h) && g.net <= h.net
    && RequestOf(h) == RequestOf(g)
    && forall part: Part :: Confirmed(h, part) == Confirmed(g, part)
  }

  /** Only node `n` has changed. */
  ghost predicate Moves1(g: State, h: State, n: Name) {
    && n in g.nodes && n in h.nodes && h.nodes == g.nodes[n := h.nodes[n]] && SameSoFar(g, h)
  }

  /** Node `m` has not changed. */
  ghost predicate Spares(g: State, h: State, m: Name) {
    && SameSoFar(g, h) && m in g.nodes && m in h.nodes && h.nodes[m] == g.nodes[m]
  }

  lemma MovesSpare(g: State, h: State, n: Name, m: Name)
    requires Moves1(g, h, n) && m in g.nodes && m != n
    ensures Spares(g, h, m)
  {
  }

  /** The coordinator and another node have moved; no third one has. */
  lemma TwoMoves(g: State, g1: State, h: State, n: Name, m: Name)
    requires Joining(g) && Moves1(g, g1, g.ring[0]) && Moves1(g1, h, n) && m in g.nodes && m != n
    ensures SameSoFar(g, h) && (m != g.ring[0] ==> Spares(g, h, m))
  {
  }

  lemma SparesOn(g: State, h: State, k: State, m: Name)
    requires Spares(g, h, m) && Spares(h, k, m)
    ensures Spares(g, k, m)
  {
  }

  predicate SameInflight(was: Node, nd: Node) {
    nd.inflight == was.inflight.(lastSent := nd.inflight.lastSent, retries := nd.inflight.retries)
  }

  /** What a node does that leaves the join under way. */
  lemma PutMoves(g: State, n: Name, nd: Node, out: seq<Packet>)
    requires Joining(g) && n in g.nodes
    requires n == g.ring[0] ==> SameInflight(g.nodes[n], nd)
    requires n != g.ring[0] ==> !g.nodes[n].inflight.active
    ensures Moves1(g, Put(g, n, nd, out), n)
    ensures forall p | p in out && !p.msg.TokenMsg? :: p in Put(g, n, nd, out).net
  {
  }

  /** The coordinator's accepts are on the way to whoever has not confirmed. */
  ghost predicate Offered(g: State) {
    Joining(g) &&
      var nd, f := g.nodes[g.ring[0]], g.nodes[g.ring[0]].inflight;
      && (!f.gotJoiner ==> Unicast(JoinerRoute(f.joiner), AcceptMsg(nd)) in g.net)
      && (!f.gotPrev ==> Unicast(nd.prev, AcceptMsg(nd)) in g.net)
  }

  lemma OfferPut(g: State, now: int)
    requires Joining(g) && now == g.nodes[g.ring[0]].inflight.lastSent + 1
    requires !(g.nodes[g.ring[0]].inflight.gotPrev && g.nodes[g.ring[0]].inflight.gotJoiner)
    ensures var (nd, out) := InflightTick(g.nodes[g.ring[0]], now);
      Moves1(g, Put(g, g.ring[0], nd, out), g.ring[0]) && Offered(Put(g, g.ring[0], nd, out))
  {
    var nd := g.nodes[g.ring[0]];
    TickOffers(nd);
    TickKeepsJoin(nd, now);
    var (nd', out) := InflightTick(nd, now);
    PutMoves(g, g.ring[0], nd', out);
    OfferStands(g, Put(g, g.ring[0], nd', out), nd', out);
  }

  lemma HeadNode(g: State)
    requires Sane(g) && Joining(g)
    ensures var nd := g.nodes[g.ring[0]];
      !nd.sending && !(nd.inflight.gotPrev && nd.inflight.gotJoiner) && nd.current == RouteTo(g, g.ring[0])
  {
    HeadIs(g, g.ring[0]);
    assert LocalInv(g.nodes[g.ring[0]]);
  }

  /** The coordinator sends its accepts again. */
  lemma Offers(g: State) returns (h: State)
    requires Sane(g) && Joining(g)
    ensures Leads(g, h) && Sane(h) && Moves1(g, h, g.ring[0]) && Offered(h)
  {
    var now := g.nodes[g.ring[0]].inflight.lastSent + 1;
    HeadNode(g);
    OfferPut(g, now);
    TickStepIs(g, now);
    h := Go(g, Label.InflightTimer(g.ring[0], now));
  }

  lemma TickStepIs(g: State, now: int)
    requires Joining(g)
    ensures LocalStep(g, Label.InflightTimer(g.ring[0], now)) == InflightTick(g.nodes[g.ring[0]], now)
  {
  }

  lemma OfferStands(g: State, h: State, nd: Node, out: seq<Packet>)
    requires Joining(g) && g.ring == h.ring && g.ring[0] in h.nodes && h.nodes[g.ring[0]] == nd && Joining(h)
    requires forall p | p in out && !p.msg.TokenMsg? :: p in h.net
    requires var was := g.nodes[g.ring[0]];
      && nd == was.(inflight := nd.inflight)
      && nd.inflight == was.inflight.(lastSent := nd.inflight.lastSent, retries := nd.inflight.retries)
      && (!was.inflight.gotJoiner ==> Unicast(JoinerRoute(was.inflight.joiner), AcceptMsg(was)) in out)
      && (!was.inflight.gotPrev ==> Unicast(was.prev, AcceptMsg(was)) in out)
    ensures Offered(h)
  {
    assert AcceptMsg(nd) == AcceptMsg(g.nodes[g.ring[0]]);
  }

  lemma TickOffers(nd: Node)
    requires nd.inflight.active && !(nd.inflight.gotPrev && nd.inflight.gotJoiner)
    ensures var out := InflightTick(nd, nd.inflight.lastSent + 1).1;
      && (!nd.inflight.gotJoiner ==> Unicast(JoinerRoute(nd.inflight.joiner), AcceptMsg(nd)) in out)
      && (!nd.inflight.gotPrev ==> Unicast(nd.prev, AcceptMsg(nd)) in out)
  {
  }

  lemma JoinerNode(g: State)
    requires Inv(g) && Joining(g)
    ensures var j, f := Joiner(g), g.nodes[g.ring[0]].inflight;
      && j in g.nodes && j !in g.ring && !g.nodes[j].sending && !g.nodes[j].inflight.active
      && g.nodes[j].current == RouteTo(g, j) == JoinerRoute(f.joiner) && g.nodes[j].request.id == f.requestId
      && (f.gotJoiner ==> g.nodes[j].joined)
  {
    assert TokenOk(g, Joiner(g), g.nodes[Joiner(g)]);
  }

  lemma JoinerOutside(g: State)
    requires Inv(g) && Joining(g)
    ensures Joiner(g) in g.nodes && Joiner(g) !in g.ring && Last(g.ring) in g.nodes && g.ring[0] in g.ring
    ensures Last(g.ring) in g.ring
  {
  }

  lemma JoinerTakes(nd: Node, m: Msg)
    requires m.JoinAccept? && nd.current.name == m.newNode.name && !nd.joined && nd.request.id == m.requestId
    ensures ApplyAccept(nd, m).1
    ensures var nd' := HandleAccept(nd, m, false, 0).0;
      nd'.joined && nd'.inflight == nd.inflight && nd'.sending == nd.sending
  {
  }

  /** The joiner takes the accept. */
  lemma JoinerInNext(g: State) returns (h: State)
    requires Sane(g) && Joining(g) && !JoinerDone(g) && Offered(g)
    ensures Leads(g, h) && Sane(h) && Moves1(g, h, Joiner(g)) && Ready(h, TheJoiner)
  {
    JoinerNode(g);
    var j, m := Joiner(g), AcceptMsg(g.nodes[g.ring[0]]);
    JoinerTakes(g.nodes[j], m);
    AppliedAnswers(g, Deliver(j, Unicast(RouteTo(g, j), m), false, 0, 0));
    h := Go(g, Deliver(j, Unicast(RouteTo(g, j), m), false, 0, 0));
    PutMoves(g, j, HandleAccept(g.nodes[j], m, false, 0).0, HandleAccept(g.nodes[j], m, false, 0).1);
  }

  lemma JoinerStays(g: State, h: State)
    requires Joining(g) && Spares(g, h, Joiner(g))
    ensures JoinerDone(g) <==> JoinerDone(h)
    ensures CanAnswer(g, TheJoiner) ==> CanAnswer(h, TheJoiner)
  {
  }

  lemma PrevStays(g: State, h: State)
    requires Joining(g) && Spares(g, h, Last(g.ring))
    ensures PrevDone(g) <==> PrevDone(h)
    ensures Ready(g, ThePredecessor) ==> Ready(h, ThePredecessor)
  {
  }

  /** The neighbour repeats its acknowledgement. */
  lemma SendsAgain(g: State, part: Part) returns (h: State)
    requires Sane(g) && Joining(g) && Done(g, part) && Neighbour(g, part) in g.nodes
    requires var m := Neighbour(g, part);
      && m != g.ring[0] && !g.nodes[m].sending && !g.nodes[m].inflight.active
      && Sending(g.nodes[m]) && g.nodes[m].ackSender.requestId == RequestOf(g)
    ensures Leads(g, h) && Sane(h) && Moves1(g, h, Neighbour(g, part)) && Ready(h, part)
    ensures var nd := g.nodes[Neighbour(g, part)];
      h.nodes[Neighbour(g, part)] == AckSenderTick(nd, nd.ackSender.lastSent + 1).0
  {
    var m := Neighbour(g, part);
    var now := g.nodes[m].ackSender.lastSent + 1;
    var (nd, out) := AckSenderTick(g.nodes[m], now);
    CurrentIs(g, m);
    assert out == [AckOf(g, m)];
    assert AckOf(g, m) in out;
    PutMoves(g, m, nd, out);
    h := Go(g, AckTimer(m, now));
    SentStaysDone(g, h, part, nd);
  }

  lemma SentStaysDone(g: State, h: State, part: Part, nd: Node)
    requires Joining(g) && Done(g, part) && Moves1(g, h, Neighbour(g, part)) && AckOf(g, Neighbour(g, part)) in h.net
    requires h.nodes[Neighbour(g, part)] == nd && nd.joined == g.nodes[Neighbour(g, part)].joined
    requires nd.next == g.nodes[Neighbour(g, part)].next
    ensures Ready(h, part)
  {
  }

  /** The joiner can do its part, unless it has done it and can tell nobody. */
  lemma ReadyJoiner(g: State) returns (h: State)
    requires Sane(g) && Joining(g) && (JoinerDone(g) && !Confirmed(g, TheJoiner) ==> CanAnswer(g, TheJoiner))
    ensures Leads(g, h) && Sane(h) && Ready(h, TheJoiner)
    ensures SameSoFar(g, h) && (Last(g.ring) != g.ring[0] ==> Spares(g, h, Last(g.ring)))
  {
    JoinerNode(g);
    LeadsSelf(g);
    h := g;
    if !JoinerDone(g) {
      h := JoinerComesIn(g);
    } else if !Ready(g, TheJoiner) {
      h := SendsAgain(g, TheJoiner);
      MovesSpare(g, h, Joiner(g), Last(g.ring));
    }
  }

  lemma JoinerComesIn(g: State) returns (h: State)
    requires Sane(g) && Joining(g) && !JoinerDone(g)
    ensures Leads(g, h) && Sane(h) && Ready(h, TheJoiner)
    ensures SameSoFar(g, h) && (Last(g.ring) != g.ring[0] ==> Spares(g, h, Last(g.ring)))
  {
    JoinerOutside(g);
    var g1 := OffersToJoiner(g);
    h := JoinerInNext(g1);
    LeadsOn(g, g1, h);
    TwoMoves(g, g1, h, Joiner(g), Last(g.ring));
  }

  lemma OffersToJoiner(g: State) returns (h: State)
    requires Sane(g) && Joining(g) && !JoinerDone(g)
    ensures Leads(g, h) && Sane(h) && Moves1(g, h, g.ring[0]) && Offered(h) && !JoinerDone(h) && Joiner(g) !in g.ring
  {
    JoinerNode(g);
    h := Offers(g);
    MovesSpare(g, h, g.ring[0], Joiner(g));
    JoinerStays(g, h);
  }

  // ------------------------------------------------------------ the predecessor's part

  lemma PrevNode(g: State)
    requires Inv(g) && Joining(g) && Last(g.ring) != g.ring[0] && !PrevDone(g)
    ensures var p, nd := Last(g.ring), g.nodes[g.ring[0]];
      && p in g.nodes && p != Joiner(g) && !g.nodes[p].inflight.active && nd.prev == RouteTo(g, p) == g.nodes[p].current
      && g.nodes[p].next == RouteTo(g, g.ring[0]) == nd.current && !nd.inflight.gotPrev && g.nodes[p].joined
  {
    var p := Last(g.ring);
    assert NextIn(g.ring, |g.ring| - 1) == g.ring[0];
    assert PrevIn(g.ring, 0) == p;
    assert TokenOk(g, p, g.nodes[p]) && MemberOk(g, p, g.nodes[p]);
  }

  /** A predecessor still blocked in the send of the token comes back from it. */
  lemma PrevReturns(g: State) returns (h: State)
    requires Sane(g) && Joining(g) && Last(g.ring) != g.ring[0]
    ensures Leads(g, h) && Sane(h) && Moves1(g, h, Last(g.ring)) && !h.nodes[Last(g.ring)].sending
    ensures PrevDone(h) == PrevDone(g) && h.nodes[Last(g.ring)].ackSender == g.nodes[Last(g.ring)].ackSender
  {
    var p := Last(g.ring);
    assert TokenOk(g, p, g.nodes[p]);
    if g.nodes[p].sending {
      ReturnMoves(g, p);
      h := Go(g, SendReturns(p));
    } else {
      h := g;
      LeadsSelf(g);
    }
  }

  lemma ReturnMoves(g: State, p: Name)
    requires Joining(g) && p in g.nodes && p != g.ring[0] && !g.nodes[p].inflight.active && p == Last(g.ring)
    ensures var h := Put(g, p, LocalStep(g, SendReturns(p)).0, LocalStep(g, SendReturns(p)).1);
      Moves1(g, h, p) && !h.nodes[p].sending && PrevDone(h) == PrevDone(g) &&
        h.nodes[p].ackSender == g.nodes[p].ackSender
  {
    PutMoves(g, p, EndForward(g.nodes[p]), []);
  }

  lemma PrevTakes(nd: Node, m: Msg)
    requires m.JoinAccept? && nd.current.name != m.newNode.name && nd.current.name == m.prev.name
    requires nd.next.name == m.before.name
    ensures ApplyAccept(nd, m).1
    ensures var nd' := HandleAccept(nd, m, false, 0).0; nd'.next == m.newNode && nd'.inflight == nd.inflight
  {
  }

  lemma PrevInNext(g: State) returns (h: State)
    requires Sane(g) && Joining(g) && Last(g.ring) != g.ring[0] && !PrevDone(g) && Offered(g)
    requires !g.nodes[Last(g.ring)].sending
    ensures Leads(g, h) && Sane(h) && Moves1(g, h, Last(g.ring)) && Ready(h, ThePredecessor)
  {
    PrevNode(g);
    JoinerNode(g);
    var p, m := Last(g.ring), AcceptMsg(g.nodes[g.ring[0]]);
    PrevTakes(g.nodes[p], m);
    AppliedAnswers(g, Deliver(p, Unicast(RouteTo(g, p), m), false, 0, 0));
    h := Go(g, Deliver(p, Unicast(RouteTo(g, p), m), false, 0, 0));
    PutMoves(g, p, HandleAccept(g.nodes[p], m, false, 0).0, HandleAccept(g.nodes[p], m, false, 0).1);
  }

  lemma PrevComesOn(g: State) returns (h: State)
    requires Sane(g) && Joining(g) && Last(g.ring) != g.ring[0] && !PrevDone(g) && !g.nodes[Last(g.ring)].sending
    ensures Leads(g, h) && Sane(h) && Spares(g, h, Joiner(g)) && Ready(h, ThePredecessor)
  {
    JoinerOutside(g);
    var g1 := OffersToPrev(g);
    h := PrevInNext(g1);
    TwoMoves(g, g1, h, Last(g.ring), Joiner(g));
    LeadsOn(g, g1, h);
  }

  lemma OffersToPrev(g: State) returns (h: State)
    requires Sane(g) && Joining(g) && Last(g.ring) != g.ring[0] && !PrevDone(g) && !g.nodes[Last(g.ring)].sending
    ensures Leads(g, h) && Sane(h) && Moves1(g, h, g.ring[0]) && Offered(h) && !PrevDone(h)
    ensures Last(g.ring) in h.nodes && !h.nodes[Last(g.ring)].sending
  {
    h := Offers(g);
    MovesSpare(g, h, g.ring[0], Last(g.ring));
    PrevStays(g, h);
  }

  lemma PrevSaysAgain(g: State) returns (h: State)
    requires Sane(g) && Joining(g) && PrevDone(g) && !g.nodes[Last(g.ring)].sending && CanAnswer(g, ThePredecessor)
    ensures Leads(g, h) && Sane(h) && Spares(g, h, Joiner(g)) && Ready(h, ThePredecessor)
  {
    JoinerNode(g);
    var p := Last(g.ring);
    assert TokenOk(g, p, g.nodes[p]);
    h := g;
    LeadsSelf(g);
    if !Ready(g, ThePredecessor) {
      h := SendsAgain(g, ThePredecessor);
      MovesSpare(g, h, p, Joiner(g));
    }
  }

  lemma PrevSpeaks(g: State) returns (h: State)
    requires Sane(g) && Joining(g) && !g.nodes[Last(g.ring)].sending && Last(g.ring) != g.ring[0]
    requires PrevDone(g) ==> CanAnswer(g, ThePredecessor)
    ensures Leads(g, h) && Sane(h) && Spares(g, h, Joiner(g)) && Ready(h, ThePredecessor)
  {
    if PrevDone(g) { h := PrevSaysAgain(g); } else { h := PrevComesOn(g); }
  }

  /** The predecessor can do its part, unless it has done it and can tell nobody. */
  lemma ReadyPrev(g: State) returns (h: State)
    requires Sane(g) && Joining(g) && (PrevDone(g) && !Confirmed(g, ThePredecessor) ==> CanAnswer(g, ThePredecessor))
    ensures Leads(g, h) && Sane(h) && Spares(g, h, Joiner(g)) && Ready(h, ThePredecessor)
  {
    JoinerOutside(g);
    if Confirmed(g, ThePredecessor) {
      h := g;
      LeadsSelf(g);
    } else {
      var g1 := PrevReturns(g);
      MovesSpare(g, g1, Last(g.ring), Joiner(g));
      h := PrevSpeaks(g1);
      SparesOn(g, g1, h, Joiner(g));
      LeadsOn(g, g1, h);
    }
  }

  // ---------------------------------------------------------------- the coordinator hears

  /** The join is complete, and nothing else has happened to the ring. */
  ghost predicate Completed(g: State, h: State) {
    Joining(g) && !Joining(h) && h.history == g.history + [Splice(Joiner(g), Last(g.ring), g.ring[0])]
    && h.ring == g.ring + [Joiner(g)]
  }

  lemma HeardShape(nd: Node, from: Name)
    requires nd.inflight.active
    ensures var f, heard := Confirm(nd, from).inflight, HandleAck(nd, JoinAck(nd.inflight.requestId, from)).0;
      if f.gotPrev && f.gotJoiner then !heard.inflight.active else heard == Confirm(nd, from)
  {
  }

  /** The coordinator hears an acknowledgement of its join. */
  lemma Hears(g: State, from: Name) returns (h: State)
    requires Sane(g) && Joining(g) && AckOf(g, from) in g.net
    ensures Leads(g, h) && Sane(h)
    ensures var f, m := Confirm(g.nodes[g.ring[0]], from).inflight,
      JoinAck(g.nodes[g.ring[0]].inflight.requestId, from);
      && h == Put(g, g.ring[0], HandleAck(g.nodes[g.ring[0]], m).0, HandleAck(g.nodes[g.ring[0]], m).1)
      && (if f.gotPrev && f.gotJoiner then !HandleAck(g.nodes[g.ring[0]], m).0.inflight.active
          else HandleAck(g.nodes[g.ring[0]], m).0 == Confirm(g.nodes[g.ring[0]], from))
  {
    HeadNode(g);
    HeardShape(g.nodes[g.ring[0]], from);
    AckStepIs(g, from);
    h := Go(g, Deliver(g.ring[0], AckOf(g, from), false, 0, 0));
  }

  lemma AckStepIs(g: State, from: Name)
    requires Joining(g)
    ensures LocalStep(g, Deliver(g.ring[0], AckOf(g, from), false, 0, 0))
         == HandleAck(g.nodes[g.ring[0]], JoinAck(g.nodes[g.ring[0]].inflight.requestId, from))
  {
  }

  lemma HeardAll(g: State, h: State, nd: Node, out: seq<Packet>)
    requires RingOk(g) && Joining(g) && !nd.inflight.active && h == Put(g, g.ring[0], nd, out)
    ensures Completed(g, h)
  {
    assert PrevIn(g.ring, 0) == Last(g.ring);
  }

  /** With both neighbours heard of or to be heard, the join can be completed. */
  lemma HearsBoth(g: State) returns (h: State)
    requires Sane(g) && Ready(g, TheJoiner) && Ready(g, ThePredecessor)
    ensures Leads(g, h) && Sane(h) && Completed(g, h)
  {
    HeadNode(g);
    var c := g.ring[0];
    if Confirmed(g, TheJoiner) {
      h := HearsPrev(g);
    } else {
      var f := Confirm(g.nodes[c], Joiner(g)).inflight;
      h := Hears(g, Joiner(g));
      if f.gotPrev && f.gotJoiner {
        HeardAll(g, h, h.nodes[c], HandleAck(g.nodes[c], JoinAck(RequestOf(g), Joiner(g))).1);
      } else {
        var g1 := h;
        HalfHeard(g, g1);
        h := HearsPrev(g1);
        LeadsOn(g, g1, h);
      }
    }
  }

  lemma HalfHeard(g: State, h: State)
    requires Sane(g) && Ready(g, ThePredecessor)
    requires var nd, m := g.nodes[g.ring[0]], JoinAck(RequestOf(g), Joiner(g));
      var f := Confirm(nd, Joiner(g)).inflight;
      && !(f.gotPrev && f.gotJoiner) && HandleAck(nd, m).0 == Confirm(nd, Joiner(g))
      && h == Put(g, g.ring[0], HandleAck(nd, m).0, HandleAck(nd, m).1)
    ensures GoesOn(g, h) && h.history == g.history && Ready(h, ThePredecessor) && Confirmed(h, TheJoiner)
    ensures !Confirmed(h, ThePredecessor)
  {
  }

  lemma HearsPrev(g: State) returns (h: State)
    requires Sane(g) && Ready(g, ThePredecessor) && Confirmed(g, TheJoiner)
    ensures Leads(g, h) && Sane(h) && Completed(g, h)
  {
    HeadNode(g);
    var c := g.ring[0];
    assert g.nodes[c].inflight.expectedPrev == Last(g.ring);
    h := Hears(g, Last(g.ring));
    HeardAll(g, h, h.nodes[c], HandleAck(g.nodes[c], JoinAck(RequestOf(g), Last(g.ring))).1);
  }

  // --------------------------------------------------------------------- progress

  /** While everyone that has done its part can still say so, the join can be completed. */
  lemma Finishes(g: State) returns (h: State)
    requires Sane(g) && Joining(g) && EveryoneCanAnswer(g)
    ensures Leads(g, h) && Sane(h) && Completed(g, h)
  {
    var g1 := ReadyPrev(g);
    JoinerCanStill(g, g1);
    var g2 := ReadyJoiner(g1);
    PrevStaysReady(g1, g2);
    LeadsOn(g, g1, g2);
    h := HearsBoth(g2);
    LeadsOn(g, g2, h);
    SameCompletion(g, g1, g2, h);
  }

  lemma JoinerCanStill(g: State, h: State)
    requires Joining(g) && Spares(g, h, Joiner(g)) && EveryoneCanAnswer(g)
    ensures Joining(h) && (JoinerDone(h) && !Confirmed(h, TheJoiner) ==> CanAnswer(h, TheJoiner))
  {
    JoinerStays(g, h);
  }

  lemma PrevStaysReady(g: State, h: State)
    requires Ready(g, ThePredecessor) && SameSoFar(g, h)
    requires Last(g.ring) != g.ring[0] ==> Spares(g, h, Last(g.ring))
    ensures Ready(h, ThePredecessor)
  {
    if Last(g.ring) != g.ring[0] { PrevStays(g, h); }
  }

  lemma SameCompletion(g: State, g1: State, g2: State, h: State)
    requires SameSoFar(g, g1) && SameSoFar(g1, g2) && Completed(g2, h)
    ensures Completed(g, h)
  {
  }

  // ------------------------------------------------------------------- without loss

  /** Whoever has done its part has sent the acknowledgement for it. */
  ghost predicate Answered(g: State) {
    && (JoinerDone(g) ==> AckOf(g, Joiner(g)) in g.net)
    && (PrevDone(g) ==> AckOf(g, Last(g.ring)) in g.net)
  }

  lemma JoinerAnswers(g: State, l: Label)
    requires Inv(g) && AllLocal(g) && Answered(g) && Enabled(g, l) && GoesOn(g, Apply(g, l))
    ensures JoinerDone(Apply(g, l)) ==> AckOf(Apply(g, l), Joiner(g)) in Apply(g, l).net
  {
    var h := Apply(g, l);
    NetGrowsOn(g, l);
    SameRequest(g, l);
    if JoinerDone(h) && !JoinerDone(g) {
      ApplyNodes(g, l);
      LocalReacts(g, l);
      JoinsByAccept(g.nodes[l.n], EventOf(g, l));
      ApplyIsDelivery(g, l, g.nodes[l.n]);
      AppliedAnswers(g, l);
    }
  }

  lemma PrevAnswers(g: State, l: Label)
    requires Inv(g) && AllLocal(g) && Answered(g) && Enabled(g, l) && GoesOn(g, Apply(g, l))
    ensures PrevDone(Apply(g, l)) ==> AckOf(Apply(g, l), Last(g.ring)) in Apply(g, l).net
  {
    var h := Apply(g, l);
    NetGrowsOn(g, l);
    SameRequest(g, l);
    if PrevDone(h) && !PrevDone(g) {
      ApplyNodes(g, l);
      PrevMoves(g, l);
      ApplyIsDelivery(g, l, g.nodes[l.n]);
      AppliedAnswers(g, l);
    }
  }

  ghost predicate Good(g: State) { Sane(g) && Answered(g) }

  /** In a run that loses nothing, whoever has done its part of the join under way has sent word of it. */
  lemma StepGood(g: State, l: Label)
    requires Good(g) && Enabled(g, l) && StartsFresh(g, l)
    ensures Good(Apply(g, l))
  {
    StepSane(g, l);
    StepAnswered(g, l);
  }

  lemma StepAnswered(g: State, l: Label)
    requires Good(g) && Enabled(g, l) && StartsFresh(g, l)
    ensures Answered(Apply(g, l))
  {
    var h := Apply(g, l);
    if Joining(h) {
      if Joining(g) {
        JoiningGoesOn(g, l);
        if GoesOn(g, h) {
          JoinerAnswers(g, l);
          PrevAnswers(g, l);
        } else {
          CompletedIsQuiet(g, l);
        }
      } else {
        StartUnanswered(g, l);
      }
    }
  }

  lemma RunGood(states: seq<State>, labels: seq<Label>, k: nat)
    requires IsRun(states, labels) && JoinsStartFresh(states, labels) && k < |states|
    ensures Good(states[k])
  {
    InitSane(states[0]);
    InitQuiet(states[0]);
    for i := 0 to k
      invariant Good(states[i])
    {
      assert StepAt(states, labels, i);
      StepGood(states[i], labels[i]);
    }
  }

  lemma InitQuiet(g: State)
    requires Init(g)
    ensures Answered(g)
  {
    forall n | n in g.nodes ensures !g.nodes[n].inflight.active { assert InitNode(g, n, g.nodes[n]); }
  }

  /** So, as long as nothing is lost, any join in flight can be completed. */
  lemma NoLossCompletes(states: seq<State>, labels: seq<Label>, k: nat)
    requires IsRun(states, labels) && JoinsStartFresh(states, labels) && k < |states|
    requires !NoJoinInFlight(states[k])
    ensures exists h :: Leads(states[k], h) && Completed(states[k], h) && IsRing(h, h.ring)
  {
    RunGood(states, labels, k);
    var g := states[k];
    var n :| n in g.nodes && g.nodes[n].inflight.active;
    HeadIs(g, n);
    var h := Finishes(g);
    QuietRing(h);
  }
}
