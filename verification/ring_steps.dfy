/** Every step of a run keeps the invariant. */
module RingSteps {
  import opened Base
  import opened NodeModel
  import opened RingProtocol
  import opened RingInvariant

  // ------------------------------------------------------------ quiet steps

  /** Routes, membership and the join under way are the same. */
  predicate SameRouting(a: Node, b: Node) {
    && b.current == a.current && b.prev == a.prev && b.next == a.next && b.joined == a.joined
    && b.request.id == a.request.id
    && b.inflight.active == a.inflight.active && b.inflight.requestId == a.inflight.requestId
    && b.inflight.joiner == a.inflight.joiner && b.inflight.expectedPrev == a.inflight.expectedPrev
    && b.inflight.gotPrev == a.inflight.gotPrev && b.inflight.gotJoiner == a.inflight.gotJoiner
  }

  /** The parts of a node the ring depends on are the same. */
  predicate SameCore(a: Node, b: Node) {
    && SameRouting(a, b)
    && b.lastSeen == a.lastSeen && b.haveToken == a.haveToken && b.sending == a.sending && b.tokenIn == a.tokenIn
  }

  ghost predicate SameRoutings(g: State, h: State) {
    && h.ports == g.ports && h.ids == g.ids && h.ring == g.ring && h.history == g.history
    && h.nodes.Keys == g.nodes.Keys
    && forall n | n in g.nodes :: SameRouting(g.nodes[n], h.nodes[n])
  }

  ghost predicate SameCores(g: State, h: State) {
    && SameRoutings(g, h) && h.transit == g.transit
    && forall n | n in g.nodes :: SameCore(g.nodes[n], h.nodes[n])
  }

  lemma SameView(g: State, h: State)
    requires SameRoutings(g, h)
    ensures ViewOf(h) == ViewOf(g)
  {
  }

  lemma SameNames(g: State, h: State)
    requires SameRoutings(g, h) && Domain(g)
    ensures Domain(h)
    ensures Names(g) ==> Names(h)
  {
  }

  lemma SamePointers(g: State, h: State)
    requires SameRoutings(g, h) && Domain(g) && Domain(h)
    ensures Pointers(g) ==> Pointers(h)
  {
  }

  lemma SamePhase(g: State, h: State)
    requires SameRoutings(g, h) && Domain(g) && Domain(h)
    ensures JoinPhase(g) ==> JoinPhase(h)
  {
  }

  lemma SameMembers(g: State, h: State)
    requires SameRoutings(g, h) && Domain(g) && Domain(h)
    ensures Membership(g) ==> Membership(h)
    ensures HistoryOk(g) ==> HistoryOk(h)
  {
    forall n | n in g.nodes ensures MemberOk(g, n, g.nodes[n]) ==> MemberOk(h, n, h.nodes[n]) {}
    forall s | SpliceOk(g, s) ensures SpliceOk(h, s) {}
  }

  /** With the routing unchanged, only token and versions remain to be shown. */
  lemma SameRoutingRing(g: State, h: State)
    requires RingOk(g) && SameRoutings(g, h) && (Domain(h) ==> OneToken(h) && Versions(h))
    ensures RingOk(h) && ViewOf(h) == ViewOf(g)
  {
    SameView(g, h);
    SameNames(g, h);
    SamePointers(g, h);
    SamePhase(g, h);
    SameMembers(g, h);
  }

  lemma SameToken(g: State, h: State)
    requires SameCores(g, h) && Domain(g) && Domain(h)
    ensures OneToken(g) ==> OneToken(h)
    ensures Versions(g) ==> Versions(h)
  {
    forall n | n in g.nodes ensures TokenOk(g, n, g.nodes[n]) ==> TokenOk(h, n, h.nodes[n]) {}
  }

  ghost predicate OutOk(v: View, out: seq<Packet>) {
    forall p | p in out && !p.msg.TokenMsg? :: MsgOk(v, p.msg)
  }

  ghost predicate NodeOk(g: State, n: Name, nd: Node) {
    && TableOk(g.ids, g.ports, n, nd.joins)
    && (nd.ackSender.active ==> AckOk(ViewOf(g), nd.ackSender.requestId, n))
  }

  /** The packets, timers and tables of `h` are those of `g` but for node `n` and what it sent. */
  lemma OthersStayOk(g: State, h: State, n: Name, out: seq<Packet>)
    requires NetOk(g) && AckSendersOk(g) && TablesOk(g) && n in g.nodes && n in h.nodes
    requires Later(ViewOf(g), ViewOf(h)) && h.ports == g.ports && h.ids == g.ids
    requires h.nodes == g.nodes[n := h.nodes[n]] && h.net == g.net + Datagrams(out)
    requires OutOk(ViewOf(h), out) && NodeOk(h, n, h.nodes[n])
    ensures NetOk(h) && AckSendersOk(h) && TablesOk(h)
  {
    var v, w := ViewOf(g), ViewOf(h);
    forall p | p in h.net ensures MsgOk(w, p.msg) {
      if p in g.net { MsgStaysOk(v, w, p.msg); }
    }
    forall m | m in h.nodes && h.nodes[m].ackSender.active ensures AckOk(w, h.nodes[m].ackSender.requestId, m) {
      if m != n { AckStaysOk(v, w, g.nodes[m].ackSender.requestId, m); }
    }
  }

  lemma SameViewIsLater(v: View)
    ensures Later(v, v)
  {
  }

  lemma SameCoresRing(g: State, h: State)
    requires RingOk(g) && SameCores(g, h)
    ensures RingOk(h) && ViewOf(h) == ViewOf(g)
  {
    SameNames(g, h);
    SameToken(g, h);
    SameRoutingRing(g, h);
  }

  lemma PutSameCore(g: State, n: Name, nd: Node, out: seq<Packet>)
    requires n in g.nodes && SameCore(g.nodes[n], nd)
    ensures SameCores(g, Put(g, n, nd, out))
  {
  }

  /** A step that touches only the table, the timers, the acknowledgement sender
      or the pending input of a node, and sends packets that are true already. */
  lemma QuietStep(g: State, n: Name, nd: Node, out: seq<Packet>)
    requires Inv(g) && n in g.nodes
    requires SameCore(g.nodes[n], nd) && NodeOk(g, n, nd) && OutOk(ViewOf(g), out)
    ensures Inv(Put(g, n, nd, out))
    ensures ViewOf(Put(g, n, nd, out)) == ViewOf(g)
  {
    var h := Put(g, n, nd, out);
    PutSameCore(g, n, nd, out);
    SameCoresRing(g, h);
    SameViewIsLater(ViewOf(g));
    OthersStayOk(g, h, n, out);
  }
}
