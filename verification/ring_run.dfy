/** Each labelled step of a run, as the handlers define it, keeps the invariant. */
module RingRun {
  import opened Base
  import opened JoinTable
  import opened NodeModel
  import opened RingProtocol
  import opened RingInvariant
  import opened RingSteps
  import opened RingSplice
  import opened RingComplete

  // ------------------------------------------------------- putting in two goes

  /** An intermediate state of the same node does not show, if the record of joins cannot tell. */
  lemma PutPut(g: State, n: Name, a: Node, b: Node, o1: seq<Packet>, o2: seq<Packet>)
    requires n in g.nodes
    requires a.prev == g.nodes[n].prev && a.inflight.joiner == g.nodes[n].inflight.joiner
    requires a.inflight.active == g.nodes[n].inflight.active
    ensures Put(Put(g, n, a, o1), n, b, o2) == Put(g, n, b, o1 + o2)
  {
    var x, y := Put(Put(g, n, a, o1), n, b, o2), Put(g, n, b, o1 + o2);
    assert x.nodes == y.nodes;
    assert x.net == y.net;
  }

  lemma PutAgain(g: State, n: Name, b: Node, o1: seq<Packet>, o2: seq<Packet>)
    requires n in g.nodes
    ensures Put(Put(g, n, b, o1), n, b, o2) == Put(g, n, b, o1 + o2)
  {
    var x, y := Put(Put(g, n, b, o1), n, b, o2), Put(g, n, b, o1 + o2);
    assert x.nodes == y.nodes;
    assert x.net == y.net;
  }

  lemma PutStarted(g: State, n: Name, a: Node, b: Node, out: seq<Packet>)
    requires n in g.nodes && !g.nodes[n].inflight.active && b.inflight.active
    ensures Put(Put(g, n, a, []), n, b, out) == Put(g, n, b, out)
  {
    var x, y := Put(Put(g, n, a, []), n, b, out), Put(g, n, b, out);
    assert x.nodes == y.nodes;
    assert x.net == y.net;
  }

  // ------------------------------------------------------------- quiet handlers

  lemma RequestShape(was: Node, now: int)
    ensures var (nd, out, _) := RequestTick(was, now);
      && SameCore(was, nd) && nd.joins == was.joins && nd.ackSender == was.ackSender
      && forall p | p in out ::
           !was.joined && p == Broadcast(JoinRequest(Request(was.current.name, was.request.id, was.current.port)))
  {
  }

  lemma RequestTimerStep(g: State, n: Name, now: int)
    requires Inv(g) && n in g.nodes
    ensures var (nd, out, _) := RequestTick(g.nodes[n], now); Inv(Put(g, n, nd, out))
  {
    var (nd, out, _) := RequestTick(g.nodes[n], now);
    RequestShape(g.nodes[n], now);
    assert MemberOk(g, n, g.nodes[n]);
    QuietStep(g, n, nd, out);
  }

  lemma AckTimerShape(was: Node, now: int)
    ensures var (nd, out) := AckSenderTick(was, now);
      && SameCore(was, nd) && nd.joins == was.joins
      && (nd.ackSender.active ==> was.ackSender.active && nd.ackSender.requestId == was.ackSender.requestId)
      && (forall p | p in out :: was.ackSender.active && p.msg == JoinAck(was.ackSender.requestId, was.current.name))
  {
  }

  lemma AckTimerStep(g: State, n: Name, now: int)
    requires Inv(g) && n in g.nodes
    ensures var (nd, out) := AckSenderTick(g.nodes[n], now); Inv(Put(g, n, nd, out))
  {
    var (nd, out) := AckSenderTick(g.nodes[n], now);
    AckTimerShape(g.nodes[n], now);
    CurrentIs(g, n);
    QuietStep(g, n, nd, out);
  }

  lemma CurrentIs(g: State, n: Name)
    requires RingOk(g) && n in g.nodes
    ensures g.nodes[n].current == RouteTo(g, n)
  {
  }

  lemma TableStep(g: State, n: Name, nd: Node)
    requires Inv(g) && n in g.nodes
    requires nd == g.nodes[n].(joins := nd.joins, cliPending := nd.cliPending, haveCli := nd.haveCli,
                               ackSender := nd.ackSender)
    requires nd.ackSender == g.nodes[n].ackSender.(active := nd.ackSender.active, gotAckAck := nd.ackSender.gotAckAck)
    requires nd.ackSender.active ==> g.nodes[n].ackSender.active
    requires TableOk(g.ids, g.ports, n, nd.joins)
    ensures Inv(Put(g, n, nd, []))
  {
    QuietStep(g, n, nd, []);
  }

  lemma PruneStep(g: State, n: Name, now: int)
    requires Inv(g) && n in g.nodes
    ensures Inv(Put(g, n, PruneTick(g.nodes[n], now), []))
  {
    TableStaysOk(g.ids, g.ports, n, g.nodes[n].joins, "", 0, now, JOIN_PENDING_TTL_S);
    TableStep(g, n, PruneTick(g.nodes[n], now));
  }

  lemma RequestStep(g: State, n: Name, r: Request, ip: nat, now: int)
    requires Inv(g) && n in g.nodes && MsgOk(ViewOf(g), JoinRequest(r))
    ensures Inv(Put(g, n, HandleRequest(g.nodes[n], r, ip, now), []))
  {
    var nd := g.nodes[n];
    if !IgnoresRequest(nd, r) {
      AddedTableOk(g.ids, g.ports, n, nd.joins, r, ip, now);
    }
    TableStep(g, n, HandleRequest(nd, r, ip, now));
  }

  lemma AckAckStep(g: State, n: Name, m: Msg)
    requires Inv(g) && n in g.nodes && m.JoinAckAck?
    ensures Inv(Put(g, n, HandleAckAck(g.nodes[n], m), []))
  {
    TableStep(g, n, HandleAckAck(g.nodes[n], m));
  }

  // ----------------------------------------------------------------- accept

  lemma OnlyJoinerHasId(g: State, j: Name, id: nat, from: Name)
    requires Domain(g) && DistinctIds(g.ids) && j in g.ids && id == g.ids[j] != 0
    requires Joining(g) && Joiner(g) == j
    requires from == j ==> ViewOf(g).joinerDone
    requires from == Last(g.ring) ==> ViewOf(g).prevDone
    ensures AckOk(ViewOf(g), id, from)
  {
  }

  function SpliceOf(m: Msg): Splice
    requires m.JoinAccept?
  {
    Splice(m.newNode.name, m.prev.name, m.before.name)
  }

  /** An accept of a completed join changes no route, wherever and whenever it arrives. */
  lemma OldAcceptIgnored(g: State, n: Name, m: Msg)
    requires Domain(g) && Membership(g) && HistoryOk(g) && n in g.nodes && g.nodes[n].current == RouteTo(g, n)
    requires m.JoinAccept?
    ensures SpliceOf(m) in g.history ==> !ApplyAccept(g.nodes[n], m).1
  {
    assert MemberOk(g, n, g.nodes[n]);
    forall i | 0 <= i < |g.history| && g.history[i] == SpliceOf(m) ensures !ApplyAccept(g.nodes[n], m).1 {
      assert SpliceOk(g, g.history[i]);
    }
  }

  /** The accept is old, and the joiner or predecessor ignores it, or it is the one under way. */
  lemma AcceptIsCurrent(g: State, n: Name, m: Msg)
    requires Domain(g) && Membership(g) && HistoryOk(g) && n in g.nodes && g.nodes[n].current == RouteTo(g, n)
    requires m.JoinAccept? && AcceptOk(ViewOf(g), m)
    requires ApplyAccept(g.nodes[n], m).1
    ensures Joining(g) && Joiner(g) == m.newNode.name && m.newNode == RouteTo(g, Joiner(g)) && Joiner(g) in g.nodes
    ensures m.before == RouteTo(g, g.ring[0]) && m.prev == RouteTo(g, Last(g.ring))
    ensures n == (if n == m.newNode.name then Joiner(g) else Last(g.ring))
  {
    OldAcceptIgnored(g, n, m);
  }

  lemma AcceptRing(g: State, n: Name, m: Msg, nd: Node, out: seq<Packet>)
    requires RingOk(g) && n in g.nodes && m.JoinAccept? && AcceptOk(ViewOf(g), m)
    requires ApplyAccept(g.nodes[n], m).1 && SameCore(ApplyAccept(g.nodes[n], m).0, nd)
    ensures var h := Put(g, n, nd, out);
      && RingOk(h) && Later(ViewOf(g), ViewOf(h))
      && AckOk(ViewOf(h), m.requestId, n)
  {
    var h := Put(g, n, nd, out);
    CurrentIs(g, n);
    AcceptIsCurrent(g, n, m);
    var j := Joiner(g);
    if n == j {
      PutReroutes(g, n, m.prev, m.before, true, nd, out);
      ReroutesNames(g, h, n, m.prev, m.before, true);
      JoinerApplies(g, h);
    } else {
      PutReroutes(g, n, g.nodes[n].prev, m.newNode, true, nd, out);
      ReroutesNames(g, h, n, g.nodes[n].prev, m.newNode, true);
      PrevApplies(g, h);
    }
    OnlyJoinerHasId(h, j, m.requestId, n);
  }

  lemma AcceptShape(was: Node, m: Msg, sent: bool, now: int)
    requires m.JoinAccept?
    ensures var (nd, out) := HandleAccept(was, m, sent, now);
      var did := ApplyAccept(was, m).1;
      && nd.joins == MarkCompletedAndPrunePending(was.joins, m.newNode.name, m.requestId)
      && (did ==> SameCore(ApplyAccept(was, m).0, nd) && nd.ackSender.active && nd.ackSender.requestId == m.requestId
                  && out == [Unicast(m.before, JoinAck(m.requestId, was.current.name))])
      && (!did ==> nd == was.(joins := nd.joins) && out == [])
  {
    if ApplyAccept(was, m).1 { AppliedShape(was, m, sent, now); } else { IgnoredShape(was, m, sent, now); }
  }

  lemma ApplyIgnoresJoins(nd: Node, joins: JoinState, m: Msg)
    requires m.JoinAccept?
    ensures ApplyAccept(nd.(joins := joins), m) == (ApplyAccept(nd, m).0.(joins := joins), ApplyAccept(nd, m).1)
  {
  }

  lemma AppliedShape(was: Node, m: Msg, sent: bool, now: int)
    requires m.JoinAccept? && ApplyAccept(was, m).1
    ensures var (nd, out) := HandleAccept(was, m, sent, now);
      && nd.joins == MarkCompletedAndPrunePending(was.joins, m.newNode.name, m.requestId)
      && SameCore(ApplyAccept(was, m).0, nd) && nd.ackSender.active && nd.ackSender.requestId == m.requestId
      && out == [Unicast(m.before, JoinAck(m.requestId, was.current.name))]
  {
    var joins := MarkCompletedAndPrunePending(was.joins, m.newNode.name, m.requestId);
    ApplyIgnoresJoins(was, joins, m);
    AcksAccept(was, ApplyAccept(was, m).0.(joins := joins), m, sent, now);
  }

  lemma AcksAccept(was: Node, applied: Node, m: Msg, sent: bool, now: int)
    requires m.JoinAccept?
    requires ApplyAccept(was.(joins := MarkCompletedAndPrunePending(was.joins, m.newNode.name, m.requestId)), m) ==
      (applied, true)
    ensures var (nd, out) := HandleAccept(was, m, sent, now);
      && nd == applied.(ackSender := nd.ackSender) && nd.ackSender.active && nd.ackSender.requestId == m.requestId
      && out == [Unicast(m.before, JoinAck(m.requestId, was.current.name))]
  {
  }

  lemma IgnoredShape(was: Node, m: Msg, sent: bool, now: int)
    requires m.JoinAccept? && !ApplyAccept(was, m).1
    ensures var (nd, out) := HandleAccept(was, m, sent, now);
      && nd.joins == MarkCompletedAndPrunePending(was.joins, m.newNode.name, m.requestId)
      && nd == was.(joins := nd.joins) && out == []
  {
  }

  lemma AckSent(v: View, p: Packet, id: nat, n: Name)
    requires p.msg == JoinAck(id, n) && AckOk(v, id, n)
    ensures OutOk(v, [p])
  {
  }

  lemma PutParts(g: State, n: Name, nd: Node, out: seq<Packet>)
    requires n in g.nodes
    ensures var h := Put(g, n, nd, out);
      && h.nodes[n] == nd && h.nodes == g.nodes[n := nd] && h.net == g.net + Datagrams(out)
      && h.ports == g.ports && h.ids == g.ids
  {
  }

  lemma AppliedAccept(g: State, h: State, n: Name, id: nat, p: Packet)
    requires RingOk(h) && NetOk(g) && AckSendersOk(g) && TablesOk(g) && n in g.nodes && n in h.nodes
    requires Later(ViewOf(g), ViewOf(h)) && h.ports == g.ports && h.ids == g.ids
    requires h.nodes == g.nodes[n := h.nodes[n]] && h.net == g.net + Datagrams([p])
    requires TableOk(g.ids, g.ports, n, h.nodes[n].joins) && h.nodes[n].ackSender.requestId == id
    requires p.msg == JoinAck(id, n) && AckOk(ViewOf(h), id, n)
    ensures Inv(h)
  {
    AckSent(ViewOf(h), p, id, n);
    OthersStayOk(g, h, n, [p]);
  }

  lemma AcceptStep(g: State, n: Name, m: Msg, sent: bool, now: int)
    requires Inv(g) && n in g.nodes && m.JoinAccept? && AcceptOk(ViewOf(g), m)
    ensures var (nd, out) := HandleAccept(g.nodes[n], m, sent, now); Inv(Put(g, n, nd, out))
  {
    var was := g.nodes[n];
    AcceptShape(was, m, sent, now);
    TableStaysOk(g.ids, g.ports, n, was.joins, m.newNode.name, m.requestId, now, 0);
    CurrentIs(g, n);
    if ApplyAccept(was, m).1 {
      var (nd, out) := HandleAccept(was, m, sent, now);
      AcceptRing(g, n, m, nd, out);
      PutParts(g, n, nd, out);
      AppliedAccept(g, Put(g, n, nd, out), n, m.requestId, out[0]);
    } else {
      TableStep(g, n, HandleAccept(was, m, sent, now).0);
    }
  }

  // ------------------------------------------------------------- completion

  lemma {:induction false} SizeInside(s: seq<Name>, keys: set<Name>)
    requires Distinct(s) && forall i | 0 <= i < |s| :: s[i] in keys
    ensures |s| <= |keys|
  {
    if s != [] {
      var last := |s| - 1;
      SizeInside(s[..last], keys - {s[last]});
    }
  }

  /** The version counter does not wrap: there are fewer than 2^32 processes. */
  lemma NoWrap(g: State)
    requires Domain(g) && Names(g)
    ensures NextVersion(|g.history|) == |g.history| + 1
  {
    SizeInside(g.ring, g.nodes.Keys);
  }

  lemma HeadIs(g: State, n: Name)
    requires RingOk(g) && n in g.nodes && g.nodes[n].inflight.active
    ensures n == g.ring[0] && Joining(g) && g.transit.None? && !g.nodes[n].sending
  {
    assert TokenOk(g, n, g.nodes[n]);
  }

  lemma CompleteHead(g: State)
    requires Domain(g) && Names(g) && Pointers(g) && JoinPhase(g) && Versions(g) && Confirmed(g)
    requires g.transit.None?
    ensures SameCore(CompletedHead(g), TryComplete(g.nodes[g.ring[0]]).0)
    ensures g.nodes[g.ring[0]].prev.name == Last(g.ring)
  {
    NoWrap(g);
    assert PrevIn(g.ring, 0) == Last(g.ring);
  }

  lemma CompleteOut(g: State)
    requires Domain(g) && Names(g) && JoinPhase(g) && Versions(g) && Confirmed(g) && g.transit.None?
    ensures var (nd, sent) := TryComplete(g.nodes[g.ring[0]]);
      && nd.ackSender == g.nodes[g.ring[0]].ackSender
      && nd.joins == RecordCompleted(Remove(g.nodes[g.ring[0]].joins, Joiner(g)).0, g.ids[Joiner(g)], Joiner(g))
      && sent == [Broadcast(JoinCommit(g.ids[Joiner(g)], Joiner(g), |g.history| + 1))]
      && g.ids[Joiner(g)] != 0
  {
    NoWrap(g);
  }

  lemma PutCompletes(g: State, nd: Node, out: seq<Packet>)
    requires Domain(g) && Joining(g) && SameCore(CompletedHead(g), nd)
    requires g.nodes[g.ring[0]].prev.name == Last(g.ring)
    ensures Completes(g, Put(g, g.ring[0], nd, out))
    ensures Domain(Put(g, g.ring[0], nd, out)) || Joiner(g) !in g.nodes
  {
  }

  lemma CompleteConfirmed(g: State)
    requires Inv(g) && Confirmed(g) && g.transit.None?
    ensures var (nd, out) := TryComplete(g.nodes[g.ring[0]]);
      Inv(Put(g, g.ring[0], nd, out)) && !Joining(Put(g, g.ring[0], nd, out))
  {
    var n := g.ring[0];
    var (nd, out) := TryComplete(g.nodes[n]);
    CompleteHead(g);
    CompleteOut(g);
    PutCompletes(g, nd, out);
    PutParts(g, n, nd, out);
    TableStaysOk(g.ids, g.ports, n, g.nodes[n].joins, Joiner(g), 0, 0, 0);
    TableStaysOk(g.ids, g.ports, n, Remove(g.nodes[n].joins, Joiner(g)).0, Joiner(g), g.ids[Joiner(g)], 0, 0);
    CompletedState(g, Put(g, n, nd, out), out[0]);
  }

  lemma CommitSent(v: View, p: Packet, id: nat, name: Name, version: nat)
    requires p.msg == JoinCommit(id, name, version) && MsgOk(v, p.msg)
    ensures OutOk(v, [p])
  {
  }

  lemma CompletedState(g: State, h: State, p: Packet)
    requires Inv(g) && Confirmed(g) && Domain(h) && Completes(g, h)
    requires h.nodes == g.nodes[g.ring[0] := h.nodes[g.ring[0]]] && h.net == g.net + Datagrams([p])
    requires h.nodes[g.ring[0]].ackSender == g.nodes[g.ring[0]].ackSender
    requires TableOk(g.ids, g.ports, g.ring[0], h.nodes[g.ring[0]].joins)
    requires p.msg == JoinCommit(g.ids[Joiner(g)], Joiner(g), |g.history| + 1) && g.ids[Joiner(g)] != 0
    ensures Inv(h) && !Joining(h)
  {
    var n := g.ring[0];
    Complete(g, h);
    CompletedView(g, h);
    CommitSent(ViewOf(h), p, g.ids[Joiner(g)], Joiner(g), |g.history| + 1);
    if g.nodes[n].ackSender.active {
      AckStaysOk(ViewOf(g), ViewOf(h), g.nodes[n].ackSender.requestId, n);
    }
    OthersStayOk(g, h, n, [p]);
  }

  lemma CompletedView(g: State, h: State)
    requires Domain(g) && JoinPhase(g) && Confirmed(g) && Completes(g, h)
    ensures MsgOk(ViewOf(h), JoinCommit(g.ids[Joiner(g)], Joiner(g), |g.history| + 1))
  {
    assert h.history[|g.history|] == Splice(Joiner(g), Last(g.ring), g.ring[0]);
  }

  lemma CompleteStep(g: State, n: Name)
    requires Inv(g) && n in g.nodes
    ensures var (nd, out) := TryComplete(g.nodes[n]); Inv(Put(g, n, nd, out))
  {
    var was := g.nodes[n];
    if was.inflight.active && was.inflight.gotPrev && was.inflight.gotJoiner {
      HeadIs(g, n);
      CompleteConfirmed(g);
    } else {
      TableStep(g, n, was);
    }
  }
}
