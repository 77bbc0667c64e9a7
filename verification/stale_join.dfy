/** A join started for a member: its holder waits for an answer that nobody sends, and the token stays. */
module StaleJoin {
  import opened Base
  import opened JoinTable
  import opened NodeModel
  import opened RingProtocol
  import opened RingInvariant
  import opened RingHandlers
  import opened LossyRuns
  import opened JoinWait
  import opened LateRequest

  /** The only token is at `n`, which joins `e` without having heard from it. */
  ghost predicate Stuck(h: State, n: Name, e: PendingJoin) {
    && n in h.nodes && Waits(h.nodes[n], e.requestId, TheJoiner, e.name) && h.nodes[n].inflight.joiner == e
    && h.transit == None
    && forall m | m in h.nodes && m != n :: Idle(h.nodes[m])
  }

  /** No acknowledgement by `e` of its join is on its way to `n`, and `e` is not sending any there. */
  ghost predicate NoAnswer(h: State, n: Name, e: PendingJoin)
    requires n in h.nodes
  {
    && (forall p | p in h.net :: !IsAnswer(p, h.nodes[n].current, e.requestId, e.name))
    && e.name in h.nodes && !Resends(h.nodes[e.name], h.nodes[n].current, e.requestId)
  }

  /** What keeps the member from answering: it has joined, and accepts with this id name it as the joiner. */
  ghost predicate Mute(h: State, n: Name, e: PendingJoin)
    requires n in h.nodes
  {
    && e.name in h.nodes && e.name != n && h.nodes[e.name].joined
    && (forall m | m in h.nodes :: h.nodes[m].current.name == m)
    && (forall p | p in h.net :: !p.msg.TokenMsg?)
    && (forall p | p in h.net && p.msg.JoinAccept? && p.msg.requestId == e.requestId :: p.msg.newNode.name == e.name)
  }

  // --------------------------------------------------------------- the system

  /** All that stays as it is while the holder waits. */
  ghost predicate Hopeless(h: State, n: Name, e: PendingJoin) { Stuck(h, n, e) && Mute(h, n, e) && NoAnswer(h, n, e) }

  /** An accept with this id names the member, which has joined, so it does not apply there. */
  lemma MemberStaysMute(h: State, l: Label, n: Name, e: PendingJoin)
    requires Stuck(h, n, e) && Mute(h, n, e) && Enabled(h, l) && l.n == e.name && Applies(h.nodes[l.n], l)
    ensures l.p.msg.requestId != e.requestId
  {
  }

  lemma NetStays(h: State, l: Label, n: Name, e: PendingJoin)
    requires Hopeless(h, n, e) && Enabled(h, l)
    requires var (nd, out) := LocalStep(h, l);
      && StepOf(h.nodes[l.n], l, nd, out)
      && forall p | p in out :: !p.msg.TokenMsg? && (p.msg.JoinAccept? ==> l.n == n && p.msg == AcceptMsg(h.nodes[n]))
    ensures forall p | p in h.net + Datagrams(LocalStep(h, l).1) ::
      && !p.msg.TokenMsg? && !IsAnswer(p, h.nodes[n].current, e.requestId, e.name)
      && (p.msg.JoinAccept? && p.msg.requestId == e.requestId ==> p.msg.newNode.name == e.name)
  {
    var (nd, out) := LocalStep(h, l);
    forall p | p in out ensures !IsAnswer(p, h.nodes[n].current, e.requestId, e.name) {
      assert IsOwnAck(h.nodes[l.n], l, p);
      if l.n == e.name && Applies(h.nodes[l.n], l) { MemberStaysMute(h, l, n, e); }
    }
  }

  lemma HopelessStep(h: State, l: Label, n: Name, e: PendingJoin)
    requires Hopeless(h, n, e) && Enabled(h, l) && !HearsCommit(l, n, e.requestId)
    ensures Hopeless(Apply(h, l), n, e) && !Forwards(h, l)
  {
    StepAcks(h, l);
    if l.n == n { WaiterSteps(h, l, e.requestId, TheJoiner, e.name); } else { IdleSteps(h, l); }
    NetStays(h, l, n, e);
    if l.n == e.name && Applies(h.nodes[l.n], l) { MemberStaysMute(h, l, n, e); }
    PutStays(h, l, n, e, LocalStep(h, l).0, LocalStep(h, l).1);
    assert Apply(h, l) == Put(h, l.n, LocalStep(h, l).0, LocalStep(h, l).1);
  }

  lemma PutStays(h: State, l: Label, n: Name, e: PendingJoin, nd: Node, out: seq<Packet>)
    requires Hopeless(h, n, e) && Enabled(h, l) && StepOf(h.nodes[l.n], l, nd, out)
    requires if l.n == n then Waits(nd, e.requestId, TheJoiner, e.name) && nd.inflight.joiner == e else Idle(nd)
    requires l.n == e.name && Applies(h.nodes[l.n], l) ==> l.p.msg.requestId != e.requestId
    requires forall p | p in h.net + Datagrams(out) ::
      && !p.msg.TokenMsg? && !IsAnswer(p, h.nodes[n].current, e.requestId, e.name)
      && (p.msg.JoinAccept? && p.msg.requestId == e.requestId ==> p.msg.newNode.name == e.name)
    ensures Hopeless(Put(h, l.n, nd, out), n, e)
  {
  }

  // -------------------------------------------------------------------- the start

  lemma StartIsHopeless(g: State, n: Name, now: int, e: PendingJoin)
    requires StartsStale(g, n, now, e)
    ensures var h := Apply(g, UseToken(n, now)); Stuck(h, n, e) && Mute(h, n, e)
  {
    StaleMember(g, n, now, e);
    var l := UseToken(n, now);
    var (nd, out) := LocalStep(g, l);
    StartWaits(g.nodes[n], now, e);
    OthersIdle(g, n);
    StartIsMute(g, n, e, nd, out);
    StartIsStuck(g, n, e, nd, out);
    StartIsPut(g, l);
  }

  lemma StartIsPut(g: State, l: Label)
    requires l.n in g.nodes && l.UseToken? && !Forwards(g, l)
    ensures Apply(g, l) == Put(g, l.n, LocalStep(g, l).0, LocalStep(g, l).1)
  {
  }

  lemma StartIsStuck(g: State, n: Name, e: PendingJoin, nd: Node, out: seq<Packet>)
    requires n in g.nodes && g.transit == None && forall m | m in g.nodes && m != n :: Idle(g.nodes[m])
    requires Waits(nd, e.requestId, TheJoiner, e.name) && nd.inflight.joiner == e
    ensures Stuck(Put(g, n, nd, out), n, e)
  {
  }

  lemma StartWaits(was: Node, now: int, e: PendingJoin)
    requires TokenReady(was) && !was.sending && Used(was.joins.joins) > 0 && Pop(was.joins).1 == Some(e)
    ensures var (nd, out) := HandleToken(was, now);
      && Waits(nd, e.requestId, TheJoiner, e.name) && nd.inflight.joiner == e && nd.current == was.current
      && forall p | p in out :: p.msg.JoinAccept? && p.msg.requestId == e.requestId && p.msg.newNode.name == e.name
  {
    InflightTimerShape(StartInflight(was.(joins := Pop(was.joins).0), e), now);
  }

  lemma OthersIdle(g: State, n: Name)
    requires RingOk(g) && n == g.ring[0] && g.transit.None?
    ensures forall m | m in g.nodes && m != n :: Idle(g.nodes[m])
  {
    forall m | m in g.nodes && m != n ensures Idle(g.nodes[m]) {
      assert TokenOk(g, m, g.nodes[m]);
    }
  }

  lemma StartIsMute(g: State, n: Name, e: PendingJoin, nd: Node, out: seq<Packet>)
    requires Inv(g) && n in g.nodes && e.name in g.nodes && e.name != n && g.nodes[e.name].joined
    requires e.requestId == g.ids[e.name] != 0 && nd.current == g.nodes[n].current
    requires forall p | p in out :: p.msg.JoinAccept? && p.msg.requestId == e.requestId && p.msg.newNode.name == e.name
    ensures Mute(Put(g, n, nd, out), n, e)
  {
    forall p | p in g.net
      ensures !p.msg.TokenMsg? && (p.msg.JoinAccept? && p.msg.requestId == e.requestId ==> p.msg.newNode.name == e.name)
    {
      assert MsgOk(ViewOf(g), p.msg);
    }
  }

  ghost predicate NeverHearsCommit(ms: seq<Move>, n: Name, id: nat) {
    forall m | m in ms && m.Step? :: !HearsCommit(m.l, n, id)
  }

  lemma {:induction false} HopelessForEver(h: State, ms: seq<Move>, k: State, n: Name, e: PendingJoin)
    requires Hopeless(h, n, e) && Goes(h, ms, k) && NeverHearsCommit(ms, n, e.requestId)
    ensures Hopeless(k, n, e)
    decreases |ms|
  {
    if ms != [] {
      assert ms[0] in ms;
      if ms[0].Step? { HopelessStep(h, ms[0].l, n, e); }
      HopelessForEver(Next(h, ms[0]), ms[1..], k, n, e);
    }
  }

  /** A join started for a member never completes, unless an acknowledgement of the member's first join can
      still reach the same coordinator, or the commit of that join reaches it only now: in every continuation,
      whatever is lost, the token stays where it is. */
  lemma StaleJoinNeverCompletes(g: State, n: Name, now: int, e: PendingJoin, ms: seq<Move>, k: State)
    requires StartsStale(g, n, now, e) && Goes(Apply(g, UseToken(n, now)), ms, k)
    requires n in Apply(g, UseToken(n, now)).nodes && NoAnswer(Apply(g, UseToken(n, now)), n, e)
    requires NeverHearsCommit(ms, n, e.requestId)
    ensures Stuck(k, n, e)
  {
    StartIsHopeless(g, n, now, e);
    HopelessForEver(Apply(g, UseToken(n, now)), ms, k, n, e);
  }

  /** Where the member is the holder's own predecessor, such an acknowledgement ends the join at once, and
      every route stays as it was. */
  lemma OldAnswerEndsIt(g: State, n: Name, now: int, e: PendingJoin)
    requires StartsStale(g, n, now, e) && e.name == Last(g.ring)
    ensures n in Apply(g, UseToken(n, now)).nodes
    ensures var nd := HandleAck(Apply(g, UseToken(n, now)).nodes[n], JoinAck(e.requestId, e.name)).0;
      TokenReady(nd) && nd.prev == g.nodes[n].prev && nd.next == g.nodes[n].next
  {
    StaleMember(g, n, now, e);
    StaleStarts(g, n, now, e);
    StartIsHopeless(g, n, now, e);
  }
}
